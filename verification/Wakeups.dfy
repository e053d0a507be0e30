/** No event that should wake a workflow is ever forgotten. */
module Wakeups {
  import opened Events
  import opened Store
  import opened Backoff
  import opened World
  import opened Effects
  import opened Soundness
  import opened Leases
  import opened Conservation
  import opened Scenarios

  predicate WakesWorkflow(a: Attributes)
  {
    || a.WorkflowExecutionStarted? || a.ActivityTaskCompleted? || a.ActivityTaskFailed?
    || a.TimerFired? || a.WorkflowExecutionSignaled? || a.WorkflowExecutionCancelRequested?
  }

  /** Event i of the run should wake its workflow. */
  ghost predicate Waking(runs: map<RunKey, Run>, key: RunKey, i: int)
  {
    key in runs && 1 <= i <= |runs[key].history| && WakesWorkflow(runs[key].history[i - 1].attributes)
  }

  /** A live workflow task of the run was scheduled after event i. */
  ghost predicate HasTask(db: Db, key: RunKey, i: int)
  {
    exists id :: id in db.workflowTasks && db.workflowTasks[id].key == key && db.workflowTasks[id].scheduledEventId > i
  }

  /** A completion was accepted from a worker that had been sent event i. */
  ghost predicate WasSeen(w: World, key: RunKey, i: int)
  {
    exists n :: 0 <= n < |w.accepted| && w.accepted[n].token.key == key && i <= |w.accepted[n].delivered|
  }

  /** A FailWorkflowTask call has taken a task scheduled after event i and has yet to
      put one back. */
  ghost predicate BeingRequeued(w: World, key: RunKey, i: int)
  {
    exists l :: l in w.failing && w.failing[l].token.key == key && w.failing[l].scheduledEventId > i
  }

  ghost predicate Covered(w: World, key: RunKey, i: int)
  {
    HasTask(w.db, key, i) || WasSeen(w, key, i) || BeingRequeued(w, key, i)
  }

  /** Every waking event within the dispatch limit is covered. */
  ghost predicate NoLostWakeup(w: World)
  {
    forall key, i :: Waking(w.db.runs, key, i) && i <= MAX_HISTORY_FETCH ==> Covered(w, key, i)
  }

  // --------------------------------------------------- what was sent to workers

  /** A delivered history is a prefix of the run's, and reaches the event that
      scheduled the task it was delivered for, unless it was cut at the limit. */
  ghost predicate DeliveredWell(w: World, l: Uuid)
    requires l in w.tickets
  {
    var t := w.tickets[l];
    t.progress.Delivered? ==>
      && t.token.key in w.db.runs && t.progress.history <= w.db.runs[t.token.key].history
      && (HoldsWorkflowTask(w.db, t.token) ==>
            || w.db.workflowTasks[t.token.taskId].scheduledEventId <= |t.progress.history|
            || |t.progress.history| == MAX_HISTORY_FETCH)
  }

  ghost predicate Deliveries(w: World)
  {
    && (forall l :: l in w.tickets ==> DeliveredWell(w, l))
    && (forall n :: 0 <= n < |w.accepted| ==> AcceptedWell(w, n))
    && (forall l :: l in w.failing ==> FailCallWell(w, l))
  }

  /** What a FailWorkflowTask call read is not older than the task it took. */
  ghost predicate FailCallWell(w: World, l: Uuid)
    requires l in w.failing
  {
    var c := w.failing[l];
    && l in w.consumed
    && c.token.key in w.db.runs && c.scheduledEventId <= |w.db.runs[c.token.key].history|
    && (c.read.Some? ==> c.scheduledEventId <= c.read.value.nextEventId - 1)
  }

  ghost predicate WakeSafe(w: World)
  {
    NoLostWakeup(w) && Deliveries(w)
  }

  // ------------------------------------------------------- new waking events

  /** A waking event appended between two states comes with a task for it. */
  ghost predicate NewWakesHaveTasks(db: Db, db': Db)
  {
    forall key, i :: Waking(db'.runs, key, i) && |HistoryOf(db.runs, key)| < i ==> HasTask(db', key, i)
  }

  lemma WakeHasTask(db: Db, key: RunKey, cause: Attributes, now: int)
    requires key in db.runs && GoodRun(db.runs[key])
    ensures NewWakesHaveTasks(db, Wake(db, key, cause, now))
  {
    var db' := Wake(db, key, cause, now);
    var n := |db.runs[key].history|;
    assert db'.workflowTasks[db.nextTaskId].scheduledEventId == n + 2;
  }

  lemma CreateRunHasTask(db: Db, key: RunKey, requestId: RequestId, workflowType: string, taskQueue: string, input: Payload,
    retryPolicy: Option<RetryPolicy>, executionTimeout: Option<int>, runTimeout: Option<int>,
    taskTimeout: Option<int>, continuedFrom: Option<Uuid>, now: int)
    requires key !in db.runs
    ensures var db' := CreateRun(db, key, requestId, workflowType, taskQueue, input, retryPolicy,
                                 executionTimeout, runTimeout, taskTimeout, continuedFrom, now);
      NewWakesHaveTasks(db, db')
  {
    var db' := CreateRun(db, key, requestId, workflowType, taskQueue, input, retryPolicy,
                         executionTimeout, runTimeout, taskTimeout, continuedFrom, now);
    assert db'.workflowTasks[db.nextTaskId].key == key && db'.workflowTasks[db.nextTaskId].scheduledEventId == 2;
  }

  lemma QuietNewWakes(db: Db, db': Db)
    requires forall k :: k in db'.runs ==> k in db.runs && db'.runs[k].history == db.runs[k].history
    ensures NewWakesHaveTasks(db, db')
  {
  }

  lemma NoteNewWakes(db: Db, key: RunKey, attrs: seq<Attributes>, now: int)
    requires key in db.runs && forall i :: 0 <= i < |attrs| ==> !WakesWorkflow(attrs[i])
    ensures NewWakesHaveTasks(db, Append(db, key, attrs, now))
  {
    var db' := Append(db, key, attrs, now);
    RecordedNewWakes(db, db', key, attrs, now);
  }

  lemma CommandsDoNotWake(cmds: seq<Command>, run: Run, newRunId: Uuid)
    requires Unsupported !in cmds
    ensures var attrs := [WorkflowTaskCompleted] + EventsOf(cmds, run, newRunId);
      forall i :: 0 <= i < |attrs| ==> !WakesWorkflow(attrs[i])
  {
    var attrs := [WorkflowTaskCompleted] + EventsOf(cmds, run, newRunId);
    forall i | 0 <= i < |attrs| ensures !WakesWorkflow(attrs[i]) {
      if i > 0 { assert attrs[i] == EventOf(cmds[i - 1], run, newRunId); }
    }
  }

  lemma CloseWithNewWakes(db: Db, key: RunKey, run: Run, c: Command, newRunId: Uuid, now: int)
    requires Sound(db) && key in db.runs && newRunId == db.nextUuid && Terminal(c)
    ensures NewWakesHaveTasks(db, CloseWith(db, key, run, c, newRunId, now))
  {
    var closed := CloseRun(db, key, StatusOf(c), now);
    FreshRun(db, key.workflow);
    hide Sound, CreateRun, NewWakesHaveTasks;
    if c.ContinueAsNewWorkflowExecution? {
      var k := c.continuation;
      var ready := closed.(nextUuid := newRunId + 2);
      CreateRunHasTask(ready, RunKey(key.workflow, newRunId), Synthetic(newRunId + 1),
        StringOrFallback(k.workflowType, run.workflowType), StringOrFallback(k.taskQueue, run.taskQueue),
        k.input, k.retryPolicy, run.executionTimeout,
        DurationOrFallback(k.runTimeout, run.runTimeout), DurationOrFallback(k.taskTimeout, run.taskTimeout),
        Some(key.runId), now);
      SameHistoriesNewWakes(db, ready, CloseWith(db, key, run, c, newRunId, now));
    } else {
      QuietNewWakes(db, closed);
    }
  }

  lemma ConcludeNewWakes(db: Db, key: RunKey, run: Run, cmds: seq<Command>, newRunId: Uuid, sticky: Option<Sticky>, now: int)
    requires Sound(db) && key in db.runs && newRunId == db.nextUuid
    ensures NewWakesHaveTasks(db, Conclude(db, key, run, cmds, newRunId, sticky, now))
  {
    hide Sound, CloseWith, NewWakesHaveTasks;
    match TerminalOf(cmds) {
      case Some(c) => CloseWithNewWakes(db, key, run, c, newRunId, now);
      case None => QuietNewWakes(db, RegisterSticky(db, key, sticky, now));
    }
  }

  lemma SameHistoriesNewWakes(a: Db, b: Db, c: Db)
    requires forall k :: HistoryOf(a.runs, k) == HistoryOf(b.runs, k)
    requires NewWakesHaveTasks(b, c)
    ensures NewWakesHaveTasks(a, c)
  {
    forall key, i | Waking(c.runs, key, i) && |HistoryOf(a.runs, key)| < i ensures HasTask(c, key, i)
    {
      assert HistoryOf(a.runs, key) == HistoryOf(b.runs, key);
    }
  }

  /** Two changes in a row, if the tasks and histories of the first stay. */
  lemma NewWakesTrans(a: Db, b: Db, c: Db)
    requires NewWakesHaveTasks(a, b) && NewWakesHaveTasks(b, c) && Grows(b, c) && TasksKept(b, c)
    ensures NewWakesHaveTasks(a, c)
  {
    forall key, i | Waking(c.runs, key, i) && |HistoryOf(a.runs, key)| < i ensures HasTask(c, key, i)
    {
      if i <= |HistoryOf(b.runs, key)| {
        assert HasTask(b, key, i);
        TaskStays(b, c, key, i);
      }
    }
  }

  ghost predicate TasksKept(db: Db, db': Db)
  {
    forall id :: id in db.workflowTasks ==>
      id in db'.workflowTasks && SameWorkflowRow(db.workflowTasks[id], db'.workflowTasks[id])
  }

  lemma TaskStays(db: Db, db': Db, key: RunKey, i: int)
    requires TasksKept(db, db') && HasTask(db, key, i)
    ensures HasTask(db', key, i)
  {
    var id :| id in db.workflowTasks && db.workflowTasks[id].key == key && db.workflowTasks[id].scheduledEventId > i;
    assert id in db'.workflowTasks && db'.workflowTasks[id].key == key && db'.workflowTasks[id].scheduledEventId > i;
  }

  lemma ConcludeTasksKept(db: Db, key: RunKey, run: Run, cmds: seq<Command>, newRunId: Uuid, sticky: Option<Sticky>, now: int)
    requires forall id :: id in db.workflowTasks ==> id < db.nextTaskId
    ensures TasksKept(db, Conclude(db, key, run, cmds, newRunId, sticky, now))
  {
  }

  lemma RespondedNewWakes(db: Db, token: TaskToken, cmds: seq<Command>, sticky: Option<Sticky>, now: int)
    requires Sound(db) && CompleteWorkflowTask(db, token, cmds, sticky, now).Commit?
    ensures NewWakesHaveTasks(db, CompleteWorkflowTask(db, token, cmds, sticky, now).db)
    ensures TasksKept(db.(workflowTasks := db.workflowTasks - {token.taskId}), CompleteWorkflowTask(db, token, cmds, sticky, now).db)
  {
    var taken := db.(workflowTasks := db.workflowTasks - {token.taskId});
    var run := db.runs[token.key];
    GrownRunsSound(db, taken);
    RecordCommandsSound(taken, token.key, cmds, db.nextUuid, now);
    CommandsDoNotWake(cmds, run, db.nextUuid);
    hide Sound, RecordCommands, Conclude, NewWakesHaveTasks, EventsOf, Append;
    var mid := RecordCommands(taken, token.key, cmds, db.nextUuid, now).value;
    RecordedNewWakes(taken, mid, token.key, [WorkflowTaskCompleted] + EventsOf(cmds, run, db.nextUuid), now);
    ConcludedNewWakes(taken, mid, token.key, run, cmds, db.nextUuid, sticky, now);
    SameHistoriesNewWakes(db, taken, CompleteWorkflowTask(db, token, cmds, sticky, now).db);
  }

  lemma ConcludedNewWakes(db: Db, mid: Db, key: RunKey, run: Run, cmds: seq<Command>, newRunId: Uuid, sticky: Option<Sticky>, now: int)
    requires Sound(mid) && key in mid.runs && newRunId == mid.nextUuid && mid.workflowTasks == db.workflowTasks
    requires NewWakesHaveTasks(db, mid)
    ensures NewWakesHaveTasks(db, Conclude(mid, key, run, cmds, newRunId, sticky, now))
    ensures TasksKept(db, Conclude(mid, key, run, cmds, newRunId, sticky, now))
  {
    hide Sound, Conclude, NewWakesHaveTasks;
    ConcludeNewWakes(mid, key, run, cmds, newRunId, sticky, now);
    ConcludeSound(mid, key, run, cmds, newRunId, sticky, now);
    SoundTaskIds(mid);
    ConcludeTasksKept(mid, key, run, cmds, newRunId, sticky, now);
    NewWakesTrans(db, mid, Conclude(mid, key, run, cmds, newRunId, sticky, now));
  }

  lemma RecordedNewWakes(db: Db, mid: Db, key: RunKey, attrs: seq<Attributes>, now: int)
    requires key in db.runs && mid.runs == Append(db, key, attrs, now).runs
    requires forall i :: 0 <= i < |attrs| ==> !WakesWorkflow(attrs[i])
    ensures NewWakesHaveTasks(db, mid)
  {
    forall k, i | k in mid.runs && |HistoryOf(db.runs, k)| < i <= |mid.runs[k].history| ensures !Waking(mid.runs, k, i) {
      assert k == key;
      assert mid.runs[k].history[i - 1].attributes == attrs[i - 1 - |db.runs[key].history|];
    }
  }

  lemma CreatedNewWakes(db: Db, wk: WorkflowKey, p: StartParams, now: int)
    requires Sound(db) && StartWorkflow(db, wk, p, now).Commit?
    ensures NewWakesHaveTasks(db, StartWorkflow(db, wk, p, now).db) && TasksKept(db, StartWorkflow(db, wk, p, now).db)
  {
    var runId := db.nextUuid;
    CreateRunHasTask(db.(nextUuid := runId + 1), RunKey(wk, runId), Client(p.requestId), p.workflowType, p.taskQueue, p.input,
      p.retryPolicy, PositiveOrNone(p.executionTimeout), PositiveOrNone(p.runTimeout), PositiveOrNone(p.taskTimeout), None, now);
    SoundTaskIds(db);
  }

  lemma EffectNewWakes(db: Db, db': Db, e: Effect)
    requires Sound(db) && Changes(db, db', e) && Grounded(db, e)
    ensures NewWakesHaveTasks(db, db')
  {
    hide CompleteWorkflowTask, StartWorkflow, NewWakesHaveTasks;
    match e {
      case Quiet => QuietNewWakes(db, db');
      case Requeued(key, queue, scheduled, now) => QuietNewWakes(db, db');
      case Noted(key, event, now) => NoteNewWakes(db, key, [event], now);
      case Closed(key, reason, now) => ClosedNewWakes(db, key, reason, now);
      case Woken(key, cause, now, acts, timers) =>
        var taken := db.(activityTasks := db.activityTasks - acts, timers := db.timers - timers);
        WakeHasTask(taken, key, cause, now);
        SameHistoriesNewWakes(db, taken, db');
      case Created(wk, p, now) => CreatedNewWakes(db, wk, p, now);
      case Responded(token, cmds, sticky, now) => RespondedNewWakes(db, token, cmds, sticky, now);
    }
  }

  lemma ClosedNewWakes(db: Db, key: RunKey, reason: string, now: int)
    requires key in db.runs
    ensures NewWakesHaveTasks(db, CloseRun(Append(db, key, [WorkflowExecutionTerminated(reason)], now), key, TERMINATED, now))
  {
    var attrs := [WorkflowExecutionTerminated(reason)];
    var db1 := Append(db, key, attrs, now);
    RecordedNewWakes(db, db1, key, attrs, now);
    NoNewWakes(db, db1, CloseRun(db1, key, TERMINATED, now));
  }

  lemma NoNewWakes(a: Db, b: Db, c: Db)
    requires NewWakesHaveTasks(a, b) && c.workflowTasks == b.workflowTasks && c.runs.Keys == b.runs.Keys
    requires forall k :: k in b.runs ==> c.runs[k].history == b.runs[k].history
    ensures NewWakesHaveTasks(a, c)
  {
    forall key, i | Waking(c.runs, key, i) && |HistoryOf(a.runs, key)| < i ensures HasTask(c, key, i) {
      assert Waking(b.runs, key, i);
      assert HasTask(b, key, i);
    }
  }

  // --------------------------------------------------------- what a step keeps

  lemma EffectTasksKept(db: Db, db': Db, e: Effect)
    requires Sound(db) && Changes(db, db', e) && !e.Quiet? && !e.Responded?
    ensures TasksKept(db, db')
  {
    hide CompleteWorkflowTask;
    SoundTaskIds(db);
  }

  lemma QuietTasksKept(w: World, s: Step)
    requires s.Dequeue? || s.Reap?
    ensures TasksKept(w.db, Apply(w, s).db)
  {
  }

  lemma StepTasksKept(w: World, s: Step)
    requires SoundWorld(w) && !s.Complete? && !s.FailDelete?
    ensures TasksKept(w.db, Apply(w, s).db)
  {
    if s.Dequeue? || s.Reap? {
      QuietTasksKept(w, s);
    } else {
      hide Apply, Changes, Sound;
      StepEffect(w, s);
      if EffectOf(w, s).Quiet? { OtherTasksKept(w, s); } else { EffectTasksKept(w.db, Apply(w, s).db, EffectOf(w, s)); }
    }
  }

  lemma OtherTasksKept(w: World, s: Step)
    requires EffectOf(w, s).Quiet? && !s.Complete? && !s.FailDelete? && !s.Dequeue? && !s.Reap?
    ensures TasksKept(w.db, Apply(w, s).db)
  {
    hide StartWorkflow, CompleteWorkflowTask, Wake, Append, EnqueueWorkflowTask, Fetch, Delay;
    assert Apply(w, s).db.workflowTasks == w.db.workflowTasks;
  }

  /** A token that holds its row after a step held the same row before it. */
  lemma HeldWasHeld(w: World, s: Step, l: Uuid)
    requires SoundWorld(w) && LeaseSafe(w) && l in w.tickets
    requires HoldsWorkflowTask(Apply(w, s).db, w.tickets[l].token)
    ensures HoldsWorkflowTask(w.db, w.tickets[l].token)
    ensures SameWorkflowRow(w.db.workflowTasks[w.tickets[l].token.taskId], Apply(w, s).db.workflowTasks[w.tickets[l].token.taskId])
  {
    if s.Dequeue? || s.DequeueActivity? {
      HeldBeforeDispatch(w, s, l);
    } else {
      hide Apply;
      LeasesComeFromDispatch(w, s);
    }
  }

  lemma HeldBeforeDispatch(w: World, s: Step, l: Uuid)
    requires LeaseSafe(w) && l in w.tickets && (s.Dequeue? || s.DequeueActivity?)
    requires HoldsWorkflowTask(Apply(w, s).db, w.tickets[l].token)
    ensures HoldsWorkflowTask(w.db, w.tickets[l].token)
    ensures SameWorkflowRow(w.db.workflowTasks[w.tickets[l].token.taskId], Apply(w, s).db.workflowTasks[w.tickets[l].token.taskId])
  {
    hide WorkflowTaskVisible, ActivityTaskVisible;
  }

  // ------------------------------------------------------------- deliveries

  lemma StepDeliveredWell(w: World, s: Step)
    requires SoundWorld(w) && LeaseSafe(w) && Deliveries(w)
    ensures forall l :: l in Apply(w, s).tickets ==> DeliveredWell(Apply(w, s), l)
  {
    hide Apply, Sound;
    var w' := Apply(w, s);
    StepSound(w, s);
    TicketProgress(w, s);
    forall l | l in w'.tickets ensures DeliveredWell(w', l) {
      if l in w.tickets && w'.tickets[l] == w.tickets[l] {
        assert DeliveredWell(w, l);
        if HoldsWorkflowTask(w'.db, w.tickets[l].token) { HeldWasHeld(w, s, l); }
      } else if NewlyDelivered(w, w', l) {
        DeliverReaches(w, l);
      }
    }
  }

  /** The history of this lease's run is delivered in this step. */
  ghost predicate NewlyDelivered(w: World, w': World, l: Uuid)
  {
    && l in w'.tickets && w'.tickets[l].progress.Delivered?
    && !(l in w.tickets && w'.tickets[l] == w.tickets[l])
  }

  ghost predicate DeliveredNow(w: World, w': World, l: Uuid)
  {
    && l in w.tickets && w.tickets[l].token.key in w.db.runs && w'.db == w.db && l in w'.tickets
    && w'.tickets[l] == Ticket(w.tickets[l].token, Delivered(Fetch(w.db.runs[w.tickets[l].token.key].history)))
  }

  /** A ticket changes only by being issued, recorded or delivered. */
  lemma TicketProgress(w: World, s: Step)
    ensures forall l :: NewlyDelivered(w, Apply(w, s), l) ==> DeliveredNow(w, Apply(w, s), l)
  {
    hide Apply;
    BooksFrame(w, s);
    match s {
      case Dequeue(id, ns, queue, worker, now) => DequeueProgress(w, s);
      case RecordStarted(lease, now) => RecordProgress(w, s);
      case Deliver(lease) => DeliverProgress(w, s);
      case _ =>
    }
  }

  lemma DequeueProgress(w: World, s: Step)
    requires s.Dequeue?
    ensures forall l :: !NewlyDelivered(w, Apply(w, s), l)
  {
    hide WorkflowTaskVisible;
  }

  lemma RecordProgress(w: World, s: Step)
    requires s.RecordStarted?
    ensures forall l :: !NewlyDelivered(w, Apply(w, s), l)
  {
    hide Append;
  }

  lemma DeliverProgress(w: World, s: Step)
    requires s.Deliver?
    ensures forall l :: NewlyDelivered(w, Apply(w, s), l) ==> DeliveredNow(w, Apply(w, s), l)
  {
    hide Fetch;
  }

  lemma DeliverReaches(w: World, l: Uuid)
    requires SoundWorld(w) && LeaseSafe(w) && l in w.tickets && w.tickets[l].token.key in w.db.runs
    ensures var t := Ticket(w.tickets[l].token, Delivered(Fetch(w.db.runs[w.tickets[l].token.key].history)));
      DeliveredWell(w.(tickets := w.tickets[l := t]), l)
  {
    var token := w.tickets[l].token;
    if HoldsWorkflowTask(w.db, token) {
      assert WorkflowLease(w, token.taskId);
      assert WorkflowRowSound(w.db.runs, w.db.workflowTasks[token.taskId]);
    }
  }

  /** Calls already in progress stay well as histories grow. */
  lemma FailCallsKept(w: World, w': World, l: Uuid)
    requires Deliveries(w) && Grows(w.db, w'.db) && w.consumed <= w'.consumed
    requires forall k :: k in w'.failing && k != l ==> k in w.failing && w'.failing[k] == w.failing[k]
    requires l in w'.failing ==> FailCallWell(w', l)
    ensures forall k :: k in w'.failing ==> FailCallWell(w', k)
  {
    forall k | k in w'.failing ensures FailCallWell(w', k) {
      if k != l { assert FailCallWell(w, k); }
    }
  }

  lemma FailDeleteCall(w: World, l: Uuid)
    requires SoundWorld(w) && LeaseSafe(w) && Deliveries(w)
    ensures var w' := DoFailDelete(w, l); Grows(w.db, w'.db) ==> forall k :: k in w'.failing ==> FailCallWell(w', k)
  {
    var w' := DoFailDelete(w, l);
    if w' != w && Grows(w.db, w'.db) {
      var token := w.tickets[l].token;
      assert WorkflowLease(w, token.taskId);
      assert WorkflowRowSound(w.db.runs, w.db.workflowTasks[token.taskId]);
      hide RowLeases, SoundRows, Tickets, Deliveries, WorkflowLease;
      FailCallsKept(w, w', l);
    }
  }

  lemma FailReadCall(w: World, l: Uuid)
    requires SoundWorld(w) && Deliveries(w)
    ensures var w' := DoFailRead(w, l); forall k :: k in w'.failing ==> FailCallWell(w', k)
  {
    hide SoundRows;
    var w' := DoFailRead(w, l);
    if w' != w {
      assert GoodRun(w.db.runs[w.failing[l].token.key]) && FailCallWell(w, l);
      FailCallsKept(w, w', l);
    }
  }

  lemma FailClearCall(w: World, l: Uuid)
    requires Deliveries(w)
    ensures var w' := DoFailClear(w, l); Grows(w.db, w'.db) ==> forall k :: k in w'.failing ==> FailCallWell(w', k)
  {
    hide SetSticky;
    var w' := DoFailClear(w, l);
    if w' != w && Grows(w.db, w'.db) {
      assert FailCallWell(w, l);
      FailCallsKept(w, w', l);
    }
  }

  lemma FailEnqueueCall(w: World, l: Uuid, now: int)
    requires Deliveries(w)
    ensures var w' := DoFailEnqueue(w, l, now); Grows(w.db, w'.db) ==> forall k :: k in w'.failing ==> FailCallWell(w', k)
  {
    hide EnqueueWorkflowTask;
    var w' := DoFailEnqueue(w, l, now);
    if w' != w && Grows(w.db, w'.db) { FailCallsKept(w, w', l); }
  }

  lemma StepFailCalls(w: World, s: Step)
    requires SoundWorld(w) && LeaseSafe(w) && Deliveries(w) && Grows(w.db, Apply(w, s).db)
    ensures forall l :: l in Apply(w, s).failing ==> FailCallWell(Apply(w, s), l)
  {
    hide SoundWorld, LeaseSafe, Deliveries, Grows, FailCallWell, DoFailDelete, DoFailRead, DoFailClear, DoFailEnqueue, DoDrop;
    match s {
      case FailDelete(l) => FailDeleteCall(w, l);
      case FailRead(l) => FailReadCall(w, l);
      case FailClear(l) => FailClearCall(w, l);
      case FailEnqueue(l, now) => FailEnqueueCall(w, l, now);
      case Drop(l) => DropCalls(w, l);
      case _ => OtherFailCalls(w, s);
    }
  }

  lemma ConsumedGrows(w: World, s: Step)
    ensures w.consumed <= Apply(w, s).consumed
  {
    hide Apply;
    BooksFrame(w, s);
    if s.Complete? || s.FailDelete? || s.CompleteActivity? || s.FailActivity? { ResponsesConsume(w, s); }
  }

  lemma ResponsesConsume(w: World, s: Step)
    requires s.Complete? || s.FailDelete? || s.CompleteActivity? || s.FailActivity?
    ensures w.consumed <= Apply(w, s).consumed
  {
    hide CompleteWorkflowTask, DeleteWorkflowTask, CompleteActivityTask, RetryActivityTask, FailActivityTerminally, Delay;
  }

  lemma DropCalls(w: World, l: Uuid)
    requires Deliveries(w)
    ensures forall k :: k in DoDrop(w, l).failing ==> FailCallWell(DoDrop(w, l), k)
  {
    FailCallsKept(w, DoDrop(w, l), l);
  }

  lemma OtherFailCalls(w: World, s: Step)
    requires Deliveries(w) && Grows(w.db, Apply(w, s).db)
    requires !(s.FailDelete? || s.FailRead? || s.FailClear? || s.FailEnqueue? || s.Drop?)
    ensures forall l :: l in Apply(w, s).failing ==> FailCallWell(Apply(w, s), l)
  {
    hide Apply;
    BooksFrame(w, s);
    ConsumedGrows(w, s);
    forall k | k in w.failing ensures FailCallWell(Apply(w, s), k) { assert FailCallWell(w, k); }
  }

  lemma AcceptedEntry(w: World, s: Step)
    requires s.Complete? && Apply(w, s).accepted != w.accepted
    ensures HasToken(w, s.lease) && Apply(w, s).failing == w.failing && Apply(w, s).tickets == w.tickets
    ensures Apply(w, s).accepted == w.accepted +
      [Acceptance(w.tickets[s.lease].token, w.tickets[s.lease].progress.history, s.commands)]
    ensures HoldsWorkflowTask(w.db, w.tickets[s.lease].token)
    ensures CompleteWorkflowTask(w.db, w.tickets[s.lease].token, s.commands, s.sticky, s.now).Commit?
    ensures Apply(w, s).db == CompleteWorkflowTask(w.db, w.tickets[s.lease].token, s.commands, s.sticky, s.now).db
  {
    hide RecordCommands, Conclude, Rejection;
  }

  /** What an accepted response was computed from is a prefix of its run's history. */
  ghost predicate AcceptedWell(w: World, n: int)
    requires 0 <= n < |w.accepted|
  {
    w.accepted[n].token.key in w.db.runs && w.accepted[n].delivered <= w.db.runs[w.accepted[n].token.key].history
  }

  lemma StepAccepted(w: World, s: Step)
    requires Deliveries(w) && Grows(w.db, Apply(w, s).db)
    ensures forall n :: 0 <= n < |Apply(w, s).accepted| ==> AcceptedWell(Apply(w, s), n)
  {
    hide Apply;
    BooksFrame(w, s);
    var w' := Apply(w, s);
    if w'.accepted != w.accepted { AcceptedEntry(w, s); assert DeliveredWell(w, s.lease); }
    forall n | 0 <= n < |w'.accepted| ensures AcceptedWell(w', n) {
      if n < |w.accepted| { assert AcceptedWell(w, n); }
    }
  }

  lemma StepDeliveries(w: World, s: Step)
    requires SoundWorld(w) && LeaseSafe(w) && Deliveries(w)
    ensures Deliveries(Apply(w, s))
  {
    hide Apply, SoundWorld, LeaseSafe, DeliveredWell, AcceptedWell, FailCallWell;
    StepSound(w, s);
    StepDeliveredWell(w, s);
    StepAccepted(w, s);
    StepFailCalls(w, s);
  }

  // ----------------------------------------------------------------- coverage

  /** An old event stays covered, unless a call dies. */
  lemma StepKeepsCoverage(w: World, s: Step, key: RunKey, i: int)
    requires !s.Drop? && SoundWorld(w) && LeaseSafe(w) && Deliveries(w) && Covered(w, key, i) && i <= MAX_HISTORY_FETCH
    ensures Covered(Apply(w, s), key, i)
  {
    hide Apply, Sound;
    BooksFrame(w, s);
    match s {
      case Complete(_, _, _, _) => CompleteKeepsCoverage(w, s, key, i);
      case FailDelete(l) => FailStatements(w, l, 0); FailDeleteKeepsCoverage(w, l, key, i);
      case FailRead(l) => StepTasksKept(w, s); FailStatements(w, l, 0); FailReadKeepsCoverage(w, Apply(w, s), key, i);
      case FailClear(l) => StepTasksKept(w, s); FailStatements(w, l, 0); FailReadKeepsCoverage(w, Apply(w, s), key, i);
      case FailEnqueue(l, now) => StepTasksKept(w, s); FailStatements(w, l, now); FailEnqueueKeepsCoverage(w, l, now, key, i);
      case _ =>
        StepTasksKept(w, s);
        PlainCoverage(w, Apply(w, s), key, i);
    }
  }

  lemma FailStatements(w: World, l: Uuid, now: int)
    ensures Apply(w, FailDelete(l)) == DoFailDelete(w, l)
    ensures Apply(w, FailEnqueue(l, now)) == DoFailEnqueue(w, l, now)
    ensures SameFailCalls(w, Apply(w, FailRead(l))) && SameFailCalls(w, Apply(w, FailClear(l)))
  {
    hide DoFailDelete, DoFailEnqueue, DoFailRead, DoFailClear, SameFailCalls;
    FailReadCalls(w, l);
    FailClearCalls(w, l);
  }

  /** The middle statements of FailWorkflowTask keep every call's task. */
  lemma FailReadCalls(w: World, l: Uuid)
    ensures SameFailCalls(w, DoFailRead(w, l))
  {
  }

  lemma FailClearCalls(w: World, l: Uuid)
    ensures SameFailCalls(w, DoFailClear(w, l))
  {
    hide SetSticky;
  }

  ghost predicate SameFailCalls(w: World, w': World)
  {
    forall l :: l in w.failing ==>
      l in w'.failing && w'.failing[l].token == w.failing[l].token && w'.failing[l].scheduledEventId == w.failing[l].scheduledEventId
  }

  lemma PlainCoverage(w: World, w': World, key: RunKey, i: int)
    requires Covered(w, key, i) && TasksKept(w.db, w'.db) && w.accepted <= w'.accepted && w'.failing == w.failing
    ensures Covered(w', key, i)
  {
    if HasTask(w.db, key, i) { TaskStays(w.db, w'.db, key, i); }
    if n :| 0 <= n < |w.accepted| && w.accepted[n].token.key == key && i <= |w.accepted[n].delivered| {
      assert w'.accepted[n] == w.accepted[n];
    }
  }

  lemma CompleteKeepsCoverage(w: World, s: Step, key: RunKey, i: int)
    requires SoundWorld(w) && LeaseSafe(w) && Deliveries(w) && Covered(w, key, i) && i <= MAX_HISTORY_FETCH && s.Complete?
    ensures Covered(Apply(w, s), key, i)
  {
    hide Apply, Sound, CompleteWorkflowTask, Covered, RowLeases, Tickets;
    if Apply(w, s).accepted == w.accepted {
      UnacceptedUnchanged(w, s);
    } else {
      AcceptedEntry(w, s);
      RespondedNewWakes(w.db, w.tickets[s.lease].token, s.commands, s.sticky, s.now);
      AcceptedCoverage(w, Apply(w, s), s.lease, key, i);
    }
  }

  /** The row a response consumes was scheduled after no event the worker had not seen. */
  lemma AcceptedCoverage(w: World, w': World, l: Uuid, key: RunKey, i: int)
    requires LeaseSafe(w) && Deliveries(w) && Covered(w, key, i) && i <= MAX_HISTORY_FETCH
    requires HasToken(w, l) && HoldsWorkflowTask(w.db, w.tickets[l].token)
    requires TasksKept(w.db.(workflowTasks := w.db.workflowTasks - {w.tickets[l].token.taskId}), w'.db)
    requires w'.failing == w.failing && |w'.accepted| == |w.accepted| + 1 && w.accepted <= w'.accepted
    requires w'.accepted[|w.accepted|].token == w.tickets[l].token
    requires w'.accepted[|w.accepted|].delivered == w.tickets[l].progress.history
    ensures Covered(w', key, i)
  {
    var token := w.tickets[l].token;
    var taken := w.db.(workflowTasks := w.db.workflowTasks - {token.taskId});
    assert DeliveredWell(w, l) && WorkflowLease(w, token.taskId);
    hide Deliveries, RowLeases, Tickets, ConsumedOnce;
    if HasTask(taken, key, i) {
      TaskStays(taken, w'.db, key, i);
    } else if HasTask(w.db, key, i) {
      TakenCoverage(w.db, token.taskId, key, i);
      assert w'.accepted[|w.accepted|].token.key == key;
    } else if WasSeen(w, key, i) {
      var n :| 0 <= n < |w.accepted| && w.accepted[n].token.key == key && i <= |w.accepted[n].delivered|;
      assert w'.accepted[n] == w.accepted[n];
    }
  }

  /** If taking one row uncovers an event, that row covered it. */
  lemma TakenCoverage(db: Db, id: nat, key: RunKey, i: int)
    requires HasTask(db, key, i)
    ensures || HasTask(db.(workflowTasks := db.workflowTasks - {id}), key, i)
            || (id in db.workflowTasks && db.workflowTasks[id].key == key && db.workflowTasks[id].scheduledEventId > i)
  {
    var taken := db.(workflowTasks := db.workflowTasks - {id});
    var k :| k in db.workflowTasks && db.workflowTasks[k].key == key && db.workflowTasks[k].scheduledEventId > i;
    assert k != id ==> k in taken.workflowTasks;
  }

  lemma UnacceptedUnchanged(w: World, s: Step)
    requires s.Complete? && Apply(w, s).accepted == w.accepted
    ensures Apply(w, s) == w
  {
    hide RecordCommands, Conclude, Rejection;
  }

  lemma FailDeleteKeepsCoverage(w: World, l: Uuid, key: RunKey, i: int)
    requires LeaseSafe(w) && Deliveries(w) && Covered(w, key, i)
    ensures Covered(DoFailDelete(w, l), key, i)
  {
    hide ConsumedOnce, ActivityLease;
    var w' := DoFailDelete(w, l);
    if w' != w {
      var token := w.tickets[l].token;
      assert WorkflowLease(w, token.taskId);
      hide RowLeases;
      if HasTask(w.db, key, i) {
        if !HasTask(w'.db, key, i) {
          TakenCoverage(w.db, token.taskId, key, i);
          assert w'.failing[l].token.key == key && w'.failing[l].scheduledEventId > i;
        }
      } else if BeingRequeued(w, key, i) {
        FailingAfterDelete(w, l, key, i);
      }
    }
  }

  /** A lease whose row is still there has no FailWorkflowTask call in progress. */
  lemma FailingAfterDelete(w: World, l: Uuid, key: RunKey, i: int)
    requires LeaseSafe(w) && BeingRequeued(w, key, i) && Deliveries(w)
    ensures BeingRequeued(DoFailDelete(w, l), key, i)
  {
    var w' := DoFailDelete(w, l);
    var k :| k in w.failing && w.failing[k].token.key == key && w.failing[k].scheduledEventId > i;
    if w' != w {
      assert WorkflowLease(w, w.tickets[l].token.taskId);
      assert l in w.tickets && w.tickets[l].token.lease == l;
      assert FailCallWell(w, k);
      assert w'.failing[k] == w.failing[k];
    }
  }

  lemma FailReadKeepsCoverage(w: World, w': World, key: RunKey, i: int)
    requires Covered(w, key, i) && TasksKept(w.db, w'.db) && w'.accepted == w.accepted
    requires SameFailCalls(w, w')
    ensures Covered(w', key, i)
  {
    if HasTask(w.db, key, i) { TaskStays(w.db, w'.db, key, i); }
    if l :| l in w.failing && w.failing[l].token.key == key && w.failing[l].scheduledEventId > i {
      assert l in w'.failing && w'.failing[l].token == w.failing[l].token;
    }
  }

  lemma FailEnqueueKeepsCoverage(w: World, l: Uuid, now: int, key: RunKey, i: int)
    requires Covered(w, key, i) && TasksKept(w.db, DoFailEnqueue(w, l, now).db) && Deliveries(w)
    ensures Covered(DoFailEnqueue(w, l, now), key, i)
  {
    var w' := DoFailEnqueue(w, l, now);
    if HasTask(w.db, key, i) { TaskStays(w.db, w'.db, key, i); }
    if k :| k in w.failing && w.failing[k].token.key == key && w.failing[k].scheduledEventId > i {
      if k == l && w' != w {
        assert FailCallWell(w, l);
        hide Deliveries;
        assert w'.db.workflowTasks[w.db.nextTaskId].scheduledEventId > i;
      } else {
        assert k in w'.failing;
      }
    }
  }

  lemma StepWakeSafe(w: World, s: Step)
    requires !s.Drop? && SoundWorld(w) && LeaseSafe(w) && WakeSafe(w)
    ensures WakeSafe(Apply(w, s))
  {
    hide Apply, Sound, Changes, Grounded;
    var w' := Apply(w, s);
    StepDeliveries(w, s);
    StepSound(w, s);
    StepEffect(w, s);
    StepGrounded(w, s);
    EffectNewWakes(w.db, w'.db, EffectOf(w, s));
    forall key, i | Waking(w'.db.runs, key, i) && i <= MAX_HISTORY_FETCH ensures Covered(w', key, i) {
      if i <= |HistoryOf(w.db.runs, key)| {
        assert Waking(w.db.runs, key, i);
        StepKeepsCoverage(w, s, key, i);
      } else {
        assert HasTask(w'.db, key, i);
      }
    }
  }

  /** In every reachable state what was delivered is a prefix of its run's history that
      reaches the event its task was scheduled by, unless cut at the limit. */
  lemma {:induction false} ReachableDeliveries(steps: seq<Step>)
    ensures Deliveries(Reach(Init(), steps))
  {
    hide Apply, SoundWorld, LeaseSafe, DeliveredWell, AcceptedWell, FailCallWell;
    if steps != [] {
      var pre := steps[..|steps| - 1];
      ReachableDeliveries(pre);
      ReachableLeases(pre);
      StepDeliveries(Reach(Init(), pre), steps[|steps| - 1]);
    }
  }

  // --------------------------------------------------------------- calls that die

  /** What covers an event covers every earlier one. */
  lemma CoversEarlier(w: World, key: RunKey, i: int, j: int)
    requires Covered(w, key, i) && j <= i
    ensures Covered(w, key, j)
  {
    if id :| id in w.db.workflowTasks && w.db.workflowTasks[id].key == key && w.db.workflowTasks[id].scheduledEventId > i {
      assert w.db.workflowTasks[id].scheduledEventId > j;
    }
    if n :| 0 <= n < |w.accepted| && w.accepted[n].token.key == key && i <= |w.accepted[n].delivered| {
      assert j <= |w.accepted[n].delivered|;
    }
    if l :| l in w.failing && w.failing[l].token.key == key && w.failing[l].scheduledEventId > i {
      assert w.failing[l].scheduledEventId > j;
    }
  }

  /** Event i is the last within the limit that the taken task was there to wake for. */
  ghost predicate LastWaking(runs: map<RunKey, Run>, key: RunKey, below: int, i: int)
  {
    && Waking(runs, key, i) && i < below && i <= MAX_HISTORY_FETCH
    && forall j :: Waking(runs, key, j) && j < below && j <= MAX_HISTORY_FETCH ==> j <= i
  }

  lemma {:induction false} LastWakingExists(runs: map<RunKey, Run>, key: RunKey, below: int, i: int) returns (m: int)
    requires Waking(runs, key, i) && i < below && i <= MAX_HISTORY_FETCH
    ensures LastWaking(runs, key, below, m) && i <= m
    decreases below - i
  {
    if j :| Waking(runs, key, j) && i < j < below && j <= MAX_HISTORY_FETCH {
      m := LastWakingExists(runs, key, below, j);
    } else {
      m := i;
    }
  }

  /** Another FailWorkflowTask call will put back a task scheduled after event i. */
  ghost predicate OtherCall(w: World, l: Uuid, key: RunKey, i: int)
  {
    exists k :: k in w.failing && k != l && w.failing[k].token.key == key && w.failing[k].scheduledEventId > i
  }

  /** The last waking event the call's task was scheduled after has another task, an
      accepted delivery or another call. */
  ghost predicate Droppable(w: World, l: Uuid)
  {
    l in w.failing ==>
      var key := w.failing[l].token.key;
      forall i :: LastWaking(w.db.runs, key, w.failing[l].scheduledEventId, i) ==>
        HasTask(w.db, key, i) || WasSeen(w, key, i) || OtherCall(w, l, key, i)
  }

  lemma DroppedCovers(w: World, l: Uuid, key: RunKey, i: int)
    ensures Covered(DoDrop(w, l), key, i) <==> HasTask(w.db, key, i) || WasSeen(w, key, i) || OtherCall(w, l, key, i)
  {
    var w' := DoDrop(w, l);
    if k :| k in w.failing && k != l && w.failing[k].token.key == key && w.failing[k].scheduledEventId > i {
      assert k in w'.failing && w'.failing[k] == w.failing[k];
    }
    if k :| k in w'.failing && w'.failing[k].token.key == key && w'.failing[k].scheduledEventId > i {
      assert k in w.failing && k != l;
    }
    assert WasSeen(w', key, i) == WasSeen(w, key, i);
  }

  /** A call that dies loses a wake-up if and only if the last waking event it was
      holding has nothing else to wake for it. */
  lemma DropKeepsWakeupsIff(w: World, l: Uuid)
    requires NoLostWakeup(w)
    ensures NoLostWakeup(DoDrop(w, l)) <==> Droppable(w, l)
  {
    hide Covered, HasTask, WasSeen, OtherCall, LastWaking;
    var w' := DoDrop(w, l);
    if NoLostWakeup(w') && l in w.failing {
      var key := w.failing[l].token.key;
      forall i | LastWaking(w.db.runs, key, w.failing[l].scheduledEventId, i)
        ensures HasTask(w.db, key, i) || WasSeen(w, key, i) || OtherCall(w, l, key, i)
      {
        LastIsWaking(w.db.runs, key, w.failing[l].scheduledEventId, i);
        DroppedCovers(w, l, key, i);
      }
    }
    if Droppable(w, l) {
      forall key, i | Waking(w'.db.runs, key, i) && i <= MAX_HISTORY_FETCH ensures Covered(w', key, i) {
        DroppedStillCovers(w, l, key, i);
      }
    }
  }

  lemma LastIsWaking(runs: map<RunKey, Run>, key: RunKey, below: int, i: int)
    requires LastWaking(runs, key, below, i)
    ensures Waking(runs, key, i) && i <= MAX_HISTORY_FETCH
  {
  }

  lemma DroppedStillCovers(w: World, l: Uuid, key: RunKey, i: int)
    requires Covered(w, key, i) && Droppable(w, l) && Waking(w.db.runs, key, i) && i <= MAX_HISTORY_FETCH
    ensures Covered(DoDrop(w, l), key, i)
  {
    hide HasTask, WasSeen, LastWaking, Waking;
    DroppedCovers(w, l, key, i);
    if !HasTask(w.db, key, i) && !WasSeen(w, key, i) && !OtherCall(w, l, key, i) {
      HeldByCall(w, l, key, i);
      var m := LastWakingExists(w.db.runs, key, w.failing[l].scheduledEventId, i);
      DroppedCovers(w, l, key, m);
      CoversEarlier(DoDrop(w, l), key, m, i);
    }
  }

  lemma HeldByCall(w: World, l: Uuid, key: RunKey, i: int)
    requires BeingRequeued(w, key, i) && !OtherCall(w, l, key, i)
    ensures l in w.failing && w.failing[l].token.key == key && w.failing[l].scheduledEventId > i
  {
  }

  ghost predicate AlwaysWakeSafe(steps: seq<Step>)
  {
    forall n :: 0 <= n <= |steps| ==> WakeSafe(Reach(Init(), steps[..n]))
  }

  ghost predicate DropSafely(w: World, s: Step)
  {
    s.Drop? ==> Droppable(w, s.lease)
  }

  ghost predicate AlwaysDropSafely(steps: seq<Step>)
  {
    forall n :: 0 <= n < |steps| ==> DropSafely(Reach(Init(), steps[..n]), steps[n])
  }

  /** Over any run of the store no wake-up is ever lost, if and only if every
      FailWorkflowTask call that died left the last event it held covered otherwise. */
  lemma {:induction false} NoLostWakeupIff(steps: seq<Step>)
    ensures AlwaysWakeSafe(steps) <==> AlwaysDropSafely(steps)
  {
    hide Reach, WakeSafe, DropSafely;
    if steps == [] {
      NothingToWake();
      assert steps[..0] == [];
    } else {
      var pre := steps[..|steps| - 1];
      NoLostWakeupIff(pre);
      assert forall n :: 0 <= n <= |pre| ==> pre[..n] == steps[..n];
      assert steps[..|steps|] == steps && steps == pre + [steps[|pre|]] && pre[..|pre|] == pre;
      assert AlwaysWakeSafe(steps) <==> AlwaysWakeSafe(pre) && WakeSafe(Reach(Init(), steps));
      assert AlwaysDropSafely(steps) <==> AlwaysDropSafely(pre) && DropSafely(Reach(Init(), pre), steps[|pre|]);
      if AlwaysWakeSafe(pre) { LastStepWakes(pre, steps[|pre|]); }
    }
  }

  lemma NothingToWake()
    ensures WakeSafe(Reach(Init(), []))
  {
  }

  lemma LastStepWakes(pre: seq<Step>, s: Step)
    requires WakeSafe(Reach(Init(), pre))
    ensures WakeSafe(Reach(Init(), pre + [s])) <==> DropSafely(Reach(Init(), pre), s)
  {
    hide Reach, NoLostWakeup, SoundWorld, LeaseSafe, Deliveries, Droppable;
    ReachOne(Init(), pre, s);
    ReachableLeases(pre);
    ReachableDeliveries(pre + [s]);
    if s.Drop? {
      DropKeepsWakeupsIff(Reach(Init(), pre), s.lease);
    } else {
      StepWakeSafe(Reach(Init(), pre), s);
    }
  }

  /** In particular, while no process dies inside FailWorkflowTask: in every reachable
      state each waking event of each run, among the first 100,000, still has a task
      scheduled after it, or was sent to a worker whose response was accepted, or is in
      the hands of a FailWorkflowTask call between its delete and its enqueue. */
  lemma ReachableNoLostWakeup(steps: seq<Step>)
    requires forall n :: 0 <= n < |steps| ==> !steps[n].Drop?
    ensures WakeSafe(Reach(Init(), steps))
  {
    hide Reach, WakeSafe;
    assert AlwaysDropSafely(steps);
    NoLostWakeupIff(steps);
    assert steps[..|steps|] == steps;
  }

  /** A run is started, its task delivered, its failure reported as far as the delete,
      and then the process dies. */
  function HalfFailed(wk: WorkflowKey, p: StartParams): seq<Step>
  {
    FirstDelivery(wk, p) + [FailDelete(1)] + [Drop(1)]
  }

  /** FailWorkflowTask is three statements, not one transaction: a process that
      stops after the first leaves a start that nothing covers any more. */
  lemma FailureInterruptedLosesWakeup(wk: WorkflowKey, p: StartParams)
    ensures !NoLostWakeup(Reach(Init(), HalfFailed(wk, p)))
  {
    hide Reach;
    var s0, key := FirstDelivery(wk, p), RunKey(wk, 0);
    ReachOne(Init(), s0, FailDelete(1));
    ReachOne(Init(), s0 + [FailDelete(1)], Drop(1));
    FirstDeliveryReaches(wk, p);
    var w := Reach(Init(), HalfFailed(wk, p));
    assert Waking(w.db.runs, key, 1);
    assert !Covered(w, key, 1);
  }
}
