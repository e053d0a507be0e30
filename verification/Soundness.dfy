/** What every transaction keeps about histories and the rows that refer to them. */
module Soundness {
  import opened Events
  import opened Store
  import opened World
  import opened Effects

  /** A run's event ids are exactly 1 .. next_event_id - 1, in order. */
  ghost predicate GoodRun(r: Run)
  {
    r.nextEventId == |r.history| + 1 && Dense(r.history)
  }

  /** A workflow task was scheduled by an event its run's history contains. */
  ghost predicate WorkflowRowSound(runs: map<RunKey, Run>, t: WorkflowTask)
  {
    t.key in runs && 1 <= t.scheduledEventId <= |runs[t.key].history|
  }

  /** An activity row's scheduled_event_id names the event that scheduled it, with
      the same activity id, type and input. */
  ghost predicate ActivityRowSound(runs: map<RunKey, Run>, t: ActivityTask)
  {
    && t.key in runs && 1 <= t.scheduledEventId <= |runs[t.key].history|
    && var a := runs[t.key].history[t.scheduledEventId - 1].attributes;
      a.ActivityTaskScheduled? && a.activity.activityId == t.activityId
      && a.activity.activityType == t.activityType && a.activity.input == t.input
  }

  /** So does a timer row's. */
  ghost predicate TimerRowSound(runs: map<RunKey, Run>, tk: TimerKey, t: Timer)
  {
    && tk.run in runs && 1 <= t.scheduledEventId <= |runs[tk.run].history|
    && var a := runs[tk.run].history[t.scheduledEventId - 1].attributes;
      a.TimerStarted? && a.timerId == tk.timerId
  }

  ghost predicate TimersSound(runs: map<RunKey, Run>, timers: map<TimerKey, Timer>)
  {
    forall tk :: tk in timers ==> TimerRowSound(runs, tk, timers[tk])
  }

  ghost predicate SoundRuns(db: Db)
  {
    forall k :: k in db.runs ==> k.runId < db.nextUuid && GoodRun(db.runs[k]) && |db.runs[k].history| >= 1
  }

  ghost predicate SoundRows(db: Db)
  {
    && (forall id :: id in db.workflowTasks ==> id < db.nextTaskId && WorkflowRowSound(db.runs, db.workflowTasks[id]))
    && (forall id :: id in db.activityTasks ==> id < db.nextTaskId && ActivityRowSound(db.runs, db.activityTasks[id]))
    && TimersSound(db.runs, db.timers)
  }

  ghost predicate Sound(db: Db)
  {
    SoundRuns(db) && SoundRows(db)
  }

  /** Nothing recorded is ever lost: runs stay and histories are only extended. */
  ghost predicate Grows(a: Db, b: Db)
  {
    a.nextUuid <= b.nextUuid &&
    forall k :: k in a.runs ==> k in b.runs && a.runs[k].history <= b.runs[k].history
  }

  lemma GrowsTrans(a: Db, b: Db, c: Db)
    requires Grows(a, b) && Grows(b, c)
    ensures Grows(a, c)
  {
  }

  // -------------------------------------------------------------- building blocks

  /** A database with the same rows over grown runs is still sound. */
  lemma GrownRunsSound(db: Db, db': Db)
    requires Sound(db) && SoundRuns(db') && Grows(db, db') && db.nextTaskId <= db'.nextTaskId
    requires forall id :: id in db'.workflowTasks ==> id in db.workflowTasks && SameWorkflowRow(db.workflowTasks[id], db'.workflowTasks[id])
    requires forall id :: id in db'.activityTasks ==> id in db.activityTasks && SameActivityRow(db.activityTasks[id], db'.activityTasks[id])
    requires forall tk :: tk in db'.timers ==> tk in db.timers && db.timers[tk] == db'.timers[tk]
    ensures Sound(db')
  {
    forall id | id in db'.workflowTasks ensures WorkflowRowSound(db'.runs, db'.workflowTasks[id]) {
      assert WorkflowRowSound(db.runs, db.workflowTasks[id]);
    }
    forall id | id in db'.activityTasks ensures ActivityRowSound(db'.runs, db'.activityTasks[id]) {
      assert ActivityRowSound(db.runs, db.activityTasks[id]);
    }
    forall tk | tk in db'.timers ensures TimerRowSound(db'.runs, tk, db'.timers[tk]) {
      assert TimerRowSound(db.runs, tk, db.timers[tk]);
    }
  }

  lemma ExtendedGood(r: Run, attrs: seq<Attributes>, now: int)
    requires GoodRun(r)
    ensures GoodRun(Extended(r, attrs, now))
    ensures r.history <= Extended(r, attrs, now).history
    ensures forall i :: 0 <= i < |attrs| ==> Extended(r, attrs, now).history[|r.history| + i].attributes == attrs[i]
  {
  }

  lemma AppendSound(db: Db, key: RunKey, attrs: seq<Attributes>, now: int)
    requires Sound(db) && key in db.runs
    ensures Sound(Append(db, key, attrs, now)) && Grows(db, Append(db, key, attrs, now))
  {
    ExtendedGood(db.runs[key], attrs, now);
    GrownRunsSound(db, Append(db, key, attrs, now));
  }

  lemma EnqueueSound(db: Db, key: RunKey, queue: string, scheduled: int, now: int, worker: Option<string>, deadline: Option<int>)
    requires Sound(db) && key in db.runs && 1 <= scheduled <= |db.runs[key].history|
    ensures Sound(EnqueueWorkflowTask(db, key, queue, scheduled, now, worker, deadline))
    ensures Grows(db, EnqueueWorkflowTask(db, key, queue, scheduled, now, worker, deadline))
  {
  }

  lemma WakeSound(db: Db, key: RunKey, cause: Attributes, now: int)
    requires Sound(db) && key in db.runs
    ensures Sound(Wake(db, key, cause, now)) && Grows(db, Wake(db, key, cause, now))
  {
    var run := db.runs[key];
    var (worker, deadline) := StickyFields(run, now);
    var attrs := [cause, WorkflowTaskScheduled(run.taskQueue)];
    AppendSound(db, key, attrs, now);
    EnqueueSound(Append(db, key, attrs, now), key, run.taskQueue, run.nextEventId + 1, now, worker, deadline);
  }

  lemma CreateRunSound(db: Db, key: RunKey, requestId: RequestId, workflowType: string, taskQueue: string, input: Payload,
    retryPolicy: Option<RetryPolicy>, executionTimeout: Option<int>, runTimeout: Option<int>,
    taskTimeout: Option<int>, continuedFrom: Option<Uuid>, now: int)
    requires Sound(db) && key !in db.runs && key.runId < db.nextUuid
    ensures var db' := CreateRun(db, key, requestId, workflowType, taskQueue, input, retryPolicy,
                                 executionTimeout, runTimeout, taskTimeout, continuedFrom, now);
      Sound(db') && Grows(db, db')
  {
    var run := Run(workflowType, taskQueue, RUNNING, 1, executionTimeout, runTimeout, taskTimeout, None, None, now, None, []);
    var started := [WorkflowExecutionStarted(workflowType, taskQueue, input, retryPolicy, continuedFrom),
                    WorkflowTaskScheduled(taskQueue)];
    ExtendedGood(run, started, now);
    var db1 := db.(currents := db.currents[key.workflow := Current(key.runId, requestId)],
                   runs := db.runs[key := Extended(run, started, now)]);
    GrownRunsSound(db, db1);
    EnqueueSound(db1, key, taskQueue, 2, now, None, None);
  }

  /** Changes to a run that leave its history and counter alone. */
  lemma TouchRunSound(db: Db, db': Db, key: RunKey)
    requires Sound(db) && key in db.runs && key in db'.runs && db' == db.(runs := db.runs[key := db'.runs[key]])
    requires db'.runs[key].history == db.runs[key].history && db'.runs[key].nextEventId == db.runs[key].nextEventId
    ensures Sound(db') && Grows(db, db')
  {
    GrownRunsSound(db, db');
  }

  // ------------------------------------------------------- workflow task completion

  /** The commands are recorded at ids first, first + 1, ... of the run. */
  ghost predicate RecordedAt(runs: map<RunKey, Run>, key: RunKey, cmds: seq<Command>, first: int)
  {
    && key in runs && 1 <= first && first - 1 + |cmds| <= |runs[key].history|
    && forall i :: 0 <= i < |cmds| ==>
      var a := runs[key].history[first - 1 + i].attributes;
      && (cmds[i].ScheduleActivityTask? ==> a == ActivityTaskScheduled(cmds[i].activity))
      && (cmds[i].StartTimer? ==> a == TimerStarted(cmds[i].timerId, cmds[i].duration))
  }

  lemma {:induction false} EnqueueActivitiesSound(db: Db, key: RunKey, queue: string, cmds: seq<Command>, first: int, now: int)
    requires Sound(db) && RecordedAt(db.runs, key, cmds, first)
    ensures var db' := EnqueueActivities(db, key, queue, cmds, first, now);
      && Sound(db') && db' == db.(activityTasks := db'.activityTasks, nextTaskId := db'.nextTaskId)
      && db.nextTaskId <= db'.nextTaskId
  {
    if cmds != [] {
      var n := |cmds| - 1;
      EnqueueActivitiesSound(db, key, queue, cmds[..n], first, now);
      var db1 := EnqueueActivities(db, key, queue, cmds[..n], first, now);
      if cmds[n].ScheduleActivityTask? {
        EnqueueActivitySound(db1, key, queue, cmds[n].activity, first + n, now);
      }
    }
  }

  lemma EnqueueActivitySound(db: Db, key: RunKey, queue: string, a: ActivityCommand, scheduled: int, now: int)
    requires Sound(db) && key in db.runs && 1 <= scheduled <= |db.runs[key].history|
    requires db.runs[key].history[scheduled - 1].attributes == ActivityTaskScheduled(a)
    ensures Sound(EnqueueActivity(db, key, queue, a, scheduled, now))
  {
    assert ActivityRowSound(db.runs, ActivityRow(key, queue, a, scheduled, now));
  }

  lemma {:induction false} InsertTimersSound(runs: map<RunKey, Run>, timers: map<TimerKey, Timer>, key: RunKey, cmds: seq<Command>, first: int, now: int)
    requires RecordedAt(runs, key, cmds, first)
    requires TimersSound(runs, timers)
    ensures InsertTimers(timers, key, cmds, first, now).Some? ==>
      TimersSound(runs, InsertTimers(timers, key, cmds, first, now).value)
  {
    if cmds != [] {
      var n := |cmds| - 1;
      InsertTimersSound(runs, timers, key, cmds[..n], first, now);
      if cmds[n].StartTimer? {
        assert runs[key].history[first - 1 + n].attributes == TimerStarted(cmds[n].timerId, cmds[n].duration);
        assert TimerRowSound(runs, TimerKey(key, cmds[n].timerId), Timer(now + cmds[n].duration, first + n));
      }
    }
  }

  lemma NewTimersSound(db: Db, ts: map<TimerKey, Timer>)
    requires Sound(db) && TimersSound(db.runs, ts)
    ensures Sound(db.(timers := ts))
  {
  }

  lemma RecordCommandsSound(db: Db, key: RunKey, cmds: seq<Command>, newRunId: Uuid, now: int)
    requires Sound(db) && key in db.runs && Unsupported !in cmds
    ensures RecordCommands(db, key, cmds, newRunId, now).Some? ==>
      var db' := RecordCommands(db, key, cmds, newRunId, now).value;
      && Sound(db') && Grows(db, db') && db'.currents == db.currents && db'.nextUuid == db.nextUuid
      && db'.runs == Append(db, key, [WorkflowTaskCompleted] + EventsOf(cmds, db.runs[key], newRunId), now).runs
      && db'.workflowTasks == db.workflowTasks && db.nextTaskId <= db'.nextTaskId
  {
    hide Sound, EnqueueActivities, InsertTimers, RecordedAt;
    var run, first := db.runs[key], db.runs[key].nextEventId + 1;
    var attrs := [WorkflowTaskCompleted] + EventsOf(cmds, run, newRunId);
    var db1 := Append(db, key, attrs, now);
    var db2 := EnqueueActivities(db1, key, run.taskQueue, cmds, first, now);
    AppendSound(db, key, attrs, now);
    CommandsRecorded(db, key, cmds, newRunId, now);
    EnqueueActivitiesSound(db1, key, run.taskQueue, cmds, first, now);
    SoundTimers(db1);
    InsertTimersSound(db1.runs, db1.timers, key, cmds, first, now);
    match InsertTimers(db2.timers, key, cmds, first, now) {
      case None =>
      case Some(ts) => NewTimersSound(db2, ts);
    }
  }

  lemma SoundTimers(db: Db)
    requires Sound(db)
    ensures TimersSound(db.runs, db.timers)
  {
  }

  lemma CommandsRecorded(db: Db, key: RunKey, cmds: seq<Command>, newRunId: Uuid, now: int)
    requires Sound(db) && key in db.runs && Unsupported !in cmds
    ensures RecordedAt(Append(db, key, [WorkflowTaskCompleted] + EventsOf(cmds, db.runs[key], newRunId), now).runs,
                       key, cmds, db.runs[key].nextEventId + 1)
  {
    var run, events := db.runs[key], EventsOf(cmds, db.runs[key], newRunId);
    var attrs := [WorkflowTaskCompleted] + events;
    var h := Extended(run, attrs, now).history;
    ExtendedGood(run, attrs, now);
    EventsKeepCommands(cmds, run, newRunId);
    hide Extended, EventsOf, EventOf;
    forall i | 0 <= i < |cmds| ensures h[run.nextEventId + i].attributes == events[i] {
      assert h[|run.history| + (i + 1)].attributes == attrs[i + 1];
    }
  }

  lemma EventsKeepCommands(cmds: seq<Command>, run: Run, newRunId: Uuid)
    requires Unsupported !in cmds
    ensures forall i :: 0 <= i < |cmds| ==>
      var a := EventsOf(cmds, run, newRunId)[i];
      && (cmds[i].ScheduleActivityTask? ==> a == ActivityTaskScheduled(cmds[i].activity))
      && (cmds[i].StartTimer? ==> a == TimerStarted(cmds[i].timerId, cmds[i].duration))
  {
    forall i | 0 <= i < |cmds| ensures EventsOf(cmds, run, newRunId)[i] == EventOf(cmds[i], run, newRunId) { }
  }

  lemma ContinueRunSound(db: Db, key: RunKey, run: Run, newRunId: Uuid, requestId: Uuid, k: Continuation, now: int)
    requires Sound(db) && RunKey(key.workflow, newRunId) !in db.runs && newRunId < db.nextUuid
    ensures var db' := ContinueRun(db, key, run, newRunId, requestId, k, now); Sound(db') && Grows(db, db')
  {
    hide Sound, Grows, CreateRun;
    CreateRunSound(db, RunKey(key.workflow, newRunId), Synthetic(requestId),
      StringOrFallback(k.workflowType, run.workflowType), StringOrFallback(k.taskQueue, run.taskQueue),
      k.input, k.retryPolicy, run.executionTimeout,
      DurationOrFallback(k.runTimeout, run.runTimeout), DurationOrFallback(k.taskTimeout, run.taskTimeout),
      Some(key.runId), now);
  }

  lemma SpendUuids(db: Db, uuid: Uuid)
    requires Sound(db) && db.nextUuid <= uuid
    ensures Sound(db.(nextUuid := uuid)) && Grows(db, db.(nextUuid := uuid))
  {
  }

  lemma FreshRun(db: Db, wk: WorkflowKey)
    requires Sound(db)
    ensures RunKey(wk, db.nextUuid) !in db.runs
  {
  }

  lemma CloseWithSound(db: Db, key: RunKey, run: Run, c: Command, newRunId: Uuid, now: int)
    requires Sound(db) && key in db.runs && newRunId == db.nextUuid && Terminal(c)
    ensures var db' := CloseWith(db, key, run, c, newRunId, now); Sound(db') && Grows(db, db')
  {
    hide Sound, ContinueRun;
    var closed := CloseRun(db, key, StatusOf(c), now);
    TouchRunSound(db, closed, key);
    FreshRun(closed, key.workflow);
    SpendUuids(closed, newRunId + 2);
    if c.ContinueAsNewWorkflowExecution? {
      ContinueRunSound(closed.(nextUuid := newRunId + 2), key, run, newRunId, newRunId + 1, c.continuation, now);
    }
  }

  lemma ConcludeSound(db: Db, key: RunKey, run: Run, cmds: seq<Command>, newRunId: Uuid, sticky: Option<Sticky>, now: int)
    requires Sound(db) && key in db.runs && newRunId == db.nextUuid
    ensures var db' := Conclude(db, key, run, cmds, newRunId, sticky, now); Sound(db') && Grows(db, db')
  {
    hide Sound, CloseWith;
    match TerminalOf(cmds) {
      case Some(c) => CloseWithSound(db, key, run, c, newRunId, now);
      case None => TouchRunSound(db, RegisterSticky(db, key, sticky, now), key);
    }
  }

  lemma CompleteSound(db: Db, token: TaskToken, cmds: seq<Command>, sticky: Option<Sticky>, now: int)
    requires Sound(db)
    ensures var tx := CompleteWorkflowTask(db, token, cmds, sticky, now);
      tx.Commit? ==> Sound(tx.db) && Grows(db, tx.db)
  {
    var tx := CompleteWorkflowTask(db, token, cmds, sticky, now);
    if tx.Commit? {
      var taken := db.(workflowTasks := db.workflowTasks - {token.taskId});
      GrownRunsSound(db, taken);
      RecordCommandsSound(taken, token.key, cmds, db.nextUuid, now);
      var db' := RecordCommands(taken, token.key, cmds, db.nextUuid, now).value;
      ConcludeSound(db', token.key, db.runs[token.key], cmds, db.nextUuid, sticky, now);
    }
  }

  /** An accepted response: the state in which its commands are recorded, before
      the run is closed or its stickiness registered. */
  lemma AcceptedResponse(db: Db, token: TaskToken, cmds: seq<Command>, sticky: Option<Sticky>, now: int) returns (mid: Db)
    requires Sound(db) && CompleteWorkflowTask(db, token, cmds, sticky, now).Commit?
    ensures token.key in db.runs && Unsupported !in cmds && Rejection(cmds) == None && HoldsWorkflowTask(db, token)
    ensures var taken := db.(workflowTasks := db.workflowTasks - {token.taskId});
      Sound(taken) && RecordCommands(taken, token.key, cmds, db.nextUuid, now) == Some(mid)
    ensures CompleteWorkflowTask(db, token, cmds, sticky, now).db ==
      Conclude(mid, token.key, db.runs[token.key], cmds, db.nextUuid, sticky, now)
    ensures Sound(mid) && Grows(db, mid) && mid.currents == db.currents && mid.nextUuid == db.nextUuid
    ensures mid.workflowTasks == db.workflowTasks - {token.taskId}
    ensures mid.runs == db.runs[token.key :=
      Extended(db.runs[token.key], [WorkflowTaskCompleted] + EventsOf(cmds, db.runs[token.key], db.nextUuid), now)]
  {
    var taken := db.(workflowTasks := db.workflowTasks - {token.taskId});
    GrownRunsSound(db, taken);
    RecordCommandsSound(taken, token.key, cmds, db.nextUuid, now);
    hide Sound, RecordCommands, Conclude, EventsOf, Extended, Rejection;
    mid := RecordCommands(taken, token.key, cmds, db.nextUuid, now).value;
  }

  // ----------------------------------------------------------------- every step

  lemma StartSound(db: Db, wk: WorkflowKey, p: StartParams, now: int)
    requires Sound(db)
    ensures var tx := StartWorkflow(db, wk, p, now); tx.Commit? ==> Sound(tx.db) && Grows(db, tx.db)
  {
    var runId := db.nextUuid;
    CreateRunSound(db.(nextUuid := runId + 1), RunKey(wk, runId), Client(p.requestId), p.workflowType, p.taskQueue, p.input,
      p.retryPolicy, PositiveOrNone(p.executionTimeout), PositiveOrNone(p.runTimeout), PositiveOrNone(p.taskTimeout), None, now);
  }

  lemma QuietSound(db: Db, db': Db)
    requires Sound(db) && QuietChange(db, db')
    ensures Sound(db') && Grows(db, db')
  {
    GrownRunsSound(db, db');
  }

  lemma WokenSound(db: Db, key: RunKey, cause: Attributes, now: int, acts: set<nat>, timers: set<TimerKey>)
    requires Sound(db) && key in db.runs
    ensures var db' := Wake(db.(activityTasks := db.activityTasks - acts, timers := db.timers - timers), key, cause, now);
      Sound(db') && Grows(db, db')
  {
    var taken := db.(activityTasks := db.activityTasks - acts, timers := db.timers - timers);
    GrownRunsSound(db, taken);
    WakeSound(taken, key, cause, now);
    hide Sound, Wake;
    GrowsTrans(db, taken, Wake(taken, key, cause, now));
  }

  lemma ClosedSound(db: Db, key: RunKey, reason: string, now: int)
    requires Sound(db) && key in db.runs
    ensures var db' := CloseRun(Append(db, key, [WorkflowExecutionTerminated(reason)], now), key, TERMINATED, now);
      Sound(db') && Grows(db, db')
  {
    var db1 := Append(db, key, [WorkflowExecutionTerminated(reason)], now);
    AppendSound(db, key, [WorkflowExecutionTerminated(reason)], now);
    TouchRunSound(db1, CloseRun(db1, key, TERMINATED, now), key);
  }

  lemma EffectSound(db: Db, db': Db, e: Effect)
    requires Sound(db) && Changes(db, db', e)
    requires e.Requeued? ==> e.key in db.runs && 1 <= e.scheduledEventId <= |db.runs[e.key].history|
    ensures Sound(db') && Grows(db, db')
  {
    hide Sound, Grows;
    match e {
      case Quiet => QuietSound(db, db');
      case Requeued(key, queue, scheduled, now) => EnqueueSound(db, key, queue, scheduled, now, None, None);
      case Noted(key, event, now) => AppendSound(db, key, [event], now);
      case Closed(key, reason, now) => ClosedSound(db, key, reason, now);
      case Woken(key, cause, now, acts, timers) => WokenSound(db, key, cause, now, acts, timers);
      case Created(wk, p, now) => StartSound(db, wk, p, now);
      case Responded(token, cmds, sticky, now) => CompleteSound(db, token, cmds, sticky, now);
    }
  }

  /** Each FailWorkflowTask call in progress belongs to a run, and what it read is
      no newer than the run. */
  ghost predicate SoundCalls(w: World)
  {
    forall l :: l in w.failing ==> SoundCall(w, l)
  }

  ghost predicate SoundWorld(w: World)
  {
    Sound(w.db) && SoundCalls(w) && TokensRefer(w)
  }

  ghost predicate TokensRefer(w: World)
  {
    && (forall l :: l in w.tickets ==> w.tickets[l].token.key in w.db.runs)
    && (forall l :: l in w.activityTickets ==> w.activityTickets[l].token.key in w.db.runs)
  }

  lemma TicketRefers(w: World, s: Step)
    requires SoundWorld(w) && Grows(w.db, Apply(w, s).db)
    requires s.Dequeue? || s.RecordStarted? || s.Deliver?
    ensures forall l :: l in Apply(w, s).tickets ==> Apply(w, s).tickets[l].token.key in Apply(w, s).db.runs
  {
    hide Append;
    if s.Dequeue? && s.taskId in w.db.workflowTasks { assert WorkflowRowSound(w.db.runs, w.db.workflowTasks[s.taskId]); }
  }

  ghost predicate ActivityTokensRefer(tickets: map<Uuid, ActivityTicket>, runs: map<RunKey, Run>)
  {
    forall l :: l in tickets ==> tickets[l].token.key in runs
  }

  lemma DequeuedActivityRefers(w: World, id: nat, ns: int, queue: string, now: int)
    requires Sound(w.db) && ActivityTokensRefer(w.activityTickets, w.db.runs)
    ensures var w' := DoDequeueActivity(w, id, ns, queue, now); ActivityTokensRefer(w'.activityTickets, w.db.runs)
  {
    hide SoundRuns, ActivityTaskVisible;
    if id in w.db.activityTasks { assert ActivityRowSound(w.db.runs, w.db.activityTasks[id]); }
  }

  lemma RecordedActivityRefers(w: World, l: Uuid, now: int)
    requires ActivityTokensRefer(w.activityTickets, w.db.runs)
    ensures var w' := DoRecordActivityStarted(w, l, now); ActivityTokensRefer(w'.activityTickets, w.db.runs)
  {
    hide Append;
  }

  lemma ActivityTicketRefers(w: World, s: Step)
    requires SoundWorld(w) && Grows(w.db, Apply(w, s).db)
    requires s.DequeueActivity? || s.RecordActivityStarted?
    ensures forall l :: l in Apply(w, s).activityTickets ==> Apply(w, s).activityTickets[l].token.key in Apply(w, s).db.runs
  {
    hide Sound, DoDequeueActivity, DoRecordActivityStarted;
    match s {
      case DequeueActivity(id, ns, queue, now) => DequeuedActivityRefers(w, id, ns, queue, now);
      case RecordActivityStarted(l, now) => RecordedActivityRefers(w, l, now);
    }
  }

  lemma StepTokens(w: World, s: Step)
    requires SoundWorld(w) && Grows(w.db, Apply(w, s).db)
    ensures TokensRefer(Apply(w, s))
  {
    hide Apply, Sound;
    BooksFrame(w, s);
    if s.Dequeue? || s.RecordStarted? || s.Deliver? { TicketRefers(w, s); }
    if s.DequeueActivity? || s.RecordActivityStarted? { ActivityTicketRefers(w, s); }
  }

  ghost predicate SoundCall(w: World, l: Uuid)
    requires l in w.failing
  {
    && w.failing[l].token.key in w.db.runs
    && (w.failing[l].read.Some? ==>
          1 <= w.failing[l].read.value.nextEventId - 1 <= |w.db.runs[w.failing[l].token.key].history|)
  }

  /** All calls but one are as they were. */
  lemma OtherCallsSound(w: World, w': World, l: Uuid)
    requires SoundCalls(w) && Grows(w.db, w'.db)
    requires forall k :: k in w'.failing && k != l ==> k in w.failing && w'.failing[k] == w.failing[k]
    requires l in w'.failing ==> SoundCall(w', l)
    ensures SoundCalls(w')
  {
    forall k | k in w'.failing ensures SoundCall(w', k) {
      if k != l { assert SoundCall(w, k); }
    }
  }

  lemma FailReadSound(w: World, l: Uuid)
    requires SoundRuns(w.db) && SoundCalls(w)
    ensures SoundCalls(DoFailRead(w, l))
  {
    var w' := DoFailRead(w, l);
    if w' != w {
      assert SoundCall(w, l);
      assert GoodRun(w.db.runs[w.failing[l].token.key]);
      OtherCallsSound(w, w', l);
    }
  }

  lemma FailClearSound(w: World, l: Uuid)
    requires SoundCalls(w) && Grows(w.db, DoFailClear(w, l).db)
    ensures SoundCalls(DoFailClear(w, l))
  {
    hide SetSticky;
    var w' := DoFailClear(w, l);
    if w' != w {
      assert SoundCall(w, l);
      OtherCallsSound(w, w', l);
    }
  }

  lemma FailEdgesSound(w: World, l: Uuid, now: int)
    requires SoundCalls(w) && TokensRefer(w)
    ensures Grows(w.db, DoFailDelete(w, l).db) ==> SoundCalls(DoFailDelete(w, l))
    ensures Grows(w.db, DoFailEnqueue(w, l, now).db) ==> SoundCalls(DoFailEnqueue(w, l, now))
  {
    hide EnqueueWorkflowTask, DeleteWorkflowTask;
    var d, q := DoFailDelete(w, l), DoFailEnqueue(w, l, now);
    if d != w && Grows(w.db, d.db) { OtherCallsSound(w, d, l); }
    if q != w && Grows(w.db, q.db) { OtherCallsSound(w, q, l); }
  }

  lemma FailCallSound(w: World, s: Step)
    requires SoundWorld(w) && Grows(w.db, Apply(w, s).db)
    requires s.FailDelete? || s.FailRead? || s.FailClear? || s.FailEnqueue?
    ensures SoundCalls(Apply(w, s))
  {
    hide SoundCalls, DoFailDelete, DoFailRead, DoFailClear, DoFailEnqueue, SoundRuns, SoundRows, Grows, TokensRefer;
    match s {
      case FailRead(l) => FailReadSound(w, l);
      case FailClear(l) => FailClearSound(w, l);
      case FailDelete(l) => FailEdgesSound(w, l, 0);
      case FailEnqueue(l, now) => FailEdgesSound(w, l, now);
    }
  }

  lemma DropCallSound(w: World, l: Uuid)
    requires SoundCalls(w)
    ensures SoundCalls(Apply(w, Drop(l)))
  {
    forall k | k in w.failing - {l} ensures SoundCall(DoDrop(w, l), k) { assert SoundCall(w, k); }
  }

  lemma StepCalls(w: World, s: Step)
    requires SoundWorld(w) && Grows(w.db, Apply(w, s).db)
    ensures SoundCalls(Apply(w, s))
  {
    hide Apply;
    BooksFrame(w, s);
    if s.FailDelete? || s.FailRead? || s.FailClear? || s.FailEnqueue? { FailCallSound(w, s); }
    if s.Drop? { DropCallSound(w, s.lease); }
  }

  /** Every step keeps the tables sound and only ever extends histories. */
  lemma StepSound(w: World, s: Step)
    requires SoundWorld(w)
    ensures SoundWorld(Apply(w, s)) && Grows(w.db, Apply(w, s).db)
  {
    hide Apply, Sound, Grows, Changes;
    StepEffect(w, s);
    EffectSound(w.db, Apply(w, s).db, EffectOf(w, s));
    StepTokens(w, s);
    StepCalls(w, s);
  }

  /** In every reachable state each run's event ids are exactly 1 ..
      next_event_id - 1 and every task, activity and timer row names an event of
      its run's history, the very event that scheduled it. */
  lemma {:induction false} ReachableSound(steps: seq<Step>)
    ensures SoundWorld(Reach(Init(), steps))
  {
    if steps != [] {
      ReachableSound(steps[..|steps| - 1]);
      StepSound(Reach(Init(), steps[..|steps| - 1]), steps[|steps| - 1]);
    }
  }

  /** Whatever happens next, what a history holds now it keeps. */
  lemma {:induction false} HistoryOnlyExtends(w: World, steps: seq<Step>)
    requires SoundWorld(w)
    ensures SoundWorld(Reach(w, steps)) && Grows(w.db, Reach(w, steps).db)
  {
    if steps != [] {
      var w' := Reach(w, steps[..|steps| - 1]);
      HistoryOnlyExtends(w, steps[..|steps| - 1]);
      StepSound(w', steps[|steps| - 1]);
      GrowsTrans(w.db, w'.db, Reach(w, steps).db);
    }
  }
}
