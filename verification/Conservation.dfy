/** Activities and timers are neither lost nor duplicated: what was scheduled is
    either still waiting in a row or has been recorded as finished. */
module Conservation {
  import opened Events
  import opened Store
  import opened Backoff
  import opened World
  import opened Effects
  import opened Soundness
  import opened Leases

  datatype Kind = ActivityStart | ActivityEnd | TimerStart | TimerEnd

  /** The event schedules, or settles, the activity or timer with this id. */
  predicate Is(a: Attributes, kind: Kind, id: int)
  {
    match kind
    case ActivityStart => a.ActivityTaskScheduled? && a.activity.activityId == id
    case ActivityEnd => (a.ActivityTaskCompleted? || a.ActivityTaskFailed?) && a.activityId == id
    case TimerStart => a.TimerStarted? && a.timerId == id
    case TimerEnd => a.TimerFired? && a.timerId == id
  }

  function Tally(h: seq<HistoryEvent>, kind: Kind, id: int): nat
  {
    if h == [] then 0
    else Tally(h[..|h| - 1], kind, id) + if Is(h[|h| - 1].attributes, kind, id) then 1 else 0
  }

  function HistoryOf(runs: map<RunKey, Run>, key: RunKey): seq<HistoryEvent>
  {
    if key in runs then runs[key].history else []
  }

  /** The live rows of one activity of one run. */
  function ActivityRows(tasks: map<nat, ActivityTask>, key: RunKey, id: int): set<nat>
  {
    set t | t in tasks && tasks[t].key == key && tasks[t].activityId == id
  }

  ghost predicate ActivitiesConserved(db: Db)
  {
    forall key, id :: ActivityConserved(db, key, id)
  }

  ghost predicate ActivityConserved(db: Db, key: RunKey, id: int)
  {
    var h := HistoryOf(db.runs, key);
    Tally(h, ActivityStart, id) == |ActivityRows(db.activityTasks, key, id)| + Tally(h, ActivityEnd, id)
  }

  ghost predicate TimersConserved(db: Db)
  {
    forall key, id :: TimerConserved(db, key, id)
  }

  ghost predicate TimerConserved(db: Db, key: RunKey, id: int)
  {
    var h := HistoryOf(db.runs, key);
    Tally(h, TimerStart, id) == (if TimerKey(key, id) in db.timers then 1 else 0) + Tally(h, TimerEnd, id)
  }

  // ------------------------------------------------------------------- counting

  lemma {:induction false} TallyConcat(a: seq<HistoryEvent>, b: seq<HistoryEvent>, kind: Kind, id: int)
    ensures Tally(a + b, kind, id) == Tally(a, kind, id) + Tally(b, kind, id)
  {
    if b == [] {
      assert a + b == a;
    } else {
      TallyConcat(a, b[..|b| - 1], kind, id);
      assert (a + b)[..|a + b| - 1] == a + b[..|b| - 1];
    }
  }

  function AttributeTally(attrs: seq<Attributes>, kind: Kind, id: int): nat
  {
    if attrs == [] then 0
    else AttributeTally(attrs[..|attrs| - 1], kind, id) + if Is(attrs[|attrs| - 1], kind, id) then 1 else 0
  }

  lemma {:induction false} StampTally(first: int, attrs: seq<Attributes>, now: int, kind: Kind, id: int)
    ensures Tally(Stamp(first, attrs, now), kind, id) == AttributeTally(attrs, kind, id)
  {
    if attrs != [] {
      var n := |attrs| - 1;
      StampTally(first, attrs[..n], now, kind, id);
      assert Stamp(first, attrs, now)[..n] == Stamp(first, attrs[..n], now);
    }
  }

  lemma ExtendedTally(run: Run, attrs: seq<Attributes>, now: int, kind: Kind, id: int)
    ensures Tally(Extended(run, attrs, now).history, kind, id) == Tally(run.history, kind, id) + AttributeTally(attrs, kind, id)
  {
    TallyConcat(run.history, Stamp(run.nextEventId, attrs, now), kind, id);
    StampTally(run.nextEventId, attrs, now, kind, id);
  }

  lemma OneTally(a: Attributes, kind: Kind, id: int)
    ensures AttributeTally([a], kind, id) == if Is(a, kind, id) then 1 else 0
  {
    assert [a][..0] == [];
  }

  lemma TwoTally(a: Attributes, b: Attributes, kind: Kind, id: int)
    ensures AttributeTally([a, b], kind, id) == (if Is(a, kind, id) then 1 else 0) + if Is(b, kind, id) then 1 else 0
  {
    assert [a, b][..1] == [a];
    OneTally(a, kind, id);
  }

  // ------------------------------------------------------------- wakes and notes

  /** What a wake-up takes off the queues is what it records as settled. */
  ghost predicate Grounded(db: Db, e: Effect)
  {
    && (e.Noted? ==> e.event.WorkflowTaskStarted? || e.event.ActivityTaskStarted?)
    && (e.Woken? ==> match e.cause
          case ActivityTaskCompleted(id, _) => e.timers == {} && TakesActivity(db, e.key, id, e.activities)
          case ActivityTaskFailed(id, _, _) => e.timers == {} && TakesActivity(db, e.key, id, e.activities)
          case TimerFired(id) => e.activities == {} && e.timers == {TimerKey(e.key, id)} && TimerKey(e.key, id) in db.timers
          case WorkflowExecutionSignaled(_, _) => e.activities == {} && e.timers == {}
          case WorkflowExecutionCancelRequested(_) => e.activities == {} && e.timers == {}
          case _ => false)
  }

  ghost predicate TakesActivity(db: Db, key: RunKey, id: int, activities: set<nat>)
  {
    exists t :: activities == {t} && t in ActivityRows(db.activityTasks, key, id)
  }

  /** A token that is accepted names its own row's run and activity. */
  lemma StepGrounded(w: World, s: Step)
    requires SoundWorld(w) && LeaseSafe(w)
    ensures Grounded(w.db, EffectOf(w, s))
  {
    hide Apply, LeaseSafe, SoundWorld, EffectOf, Grounded;
    match s {
      case CompleteActivity(_, _, _) => CompleteActivityGrounded(w, s);
      case FailActivity(_, _, _, _) => FailActivityGrounded(w, s);
      case Fire(_, _) => FireGrounded(w, s);
      case _ => OtherGrounded(w, s);
    }
  }

  lemma OtherGrounded(w: World, s: Step)
    requires !s.CompleteActivity? && !s.FailActivity? && !s.Fire?
    ensures Grounded(w.db, EffectOf(w, s))
  {
    hide Apply;
  }

  lemma FireGrounded(w: World, s: Step)
    requires s.Fire?
    ensures Grounded(w.db, EffectOf(w, s))
  {
    hide Wake;
  }

  lemma HeldRow(w: World, l: Uuid)
    requires LeaseSafe(w) && l in w.activityTickets && HoldsActivityTask(w.db, w.activityTickets[l].token)
    ensures var token := w.activityTickets[l].token;
      && w.db.activityTasks[token.taskId] == w.activityTickets[l].row && w.activityTickets[l].row.key == token.key
      && TakesActivity(w.db, token.key, w.activityTickets[l].row.activityId, {token.taskId})
  {
    var token := w.activityTickets[l].token;
    assert ActivityLease(w, token.taskId);
    assert token.taskId in ActivityRows(w.db.activityTasks, token.key, w.activityTickets[l].row.activityId);
  }

  lemma CompleteActivityGrounded(w: World, s: Step)
    requires LeaseSafe(w) && s.CompleteActivity?
    ensures Grounded(w.db, EffectOf(w, s))
  {
    hide Wake, LeaseSafe, TakesActivity;
    if EffectOf(w, s).Woken? { HeldRow(w, s.lease); }
  }

  lemma ReadIsLeasedRow(w: World, l: Uuid)
    requires LeaseSafe(w) && l in w.failReads
    ensures l in w.activityTickets && w.failReads[l] == w.activityTickets[l].row
  {
  }

  lemma FailActivityGrounded(w: World, s: Step)
    requires LeaseSafe(w) && s.FailActivity?
    ensures Grounded(w.db, EffectOf(w, s))
  {
    hide Wake, Delay, LeaseSafe, TakesActivity, Retryable;
    if EffectOf(w, s).Woken? {
      HeldRow(w, s.lease);
      ReadIsLeasedRow(w, s.lease);
    }
  }

  /** Other runs' histories are untouched. */
  lemma WakeRuns(db: Db, key: RunKey, cause: Attributes, now: int, kind: Kind, k: RunKey, id: int)
    requires key in db.runs
    ensures Tally(HistoryOf(Wake(db, key, cause, now).runs, k), kind, id) ==
      Tally(HistoryOf(db.runs, k), kind, id) + if k == key && Is(cause, kind, id) then 1 else 0
  {
    if k == key {
      var attrs := [cause, WorkflowTaskScheduled(db.runs[key].taskQueue)];
      ExtendedTally(db.runs[key], attrs, now, kind, id);
      TwoTally(cause, attrs[1], kind, id);
    }
  }

  lemma NoteRuns(db: Db, key: RunKey, event: Attributes, now: int, kind: Kind, k: RunKey, id: int)
    requires key in db.runs && !Is(event, kind, id)
    ensures Tally(HistoryOf(Append(db, key, [event], now).runs, k), kind, id) == Tally(HistoryOf(db.runs, k), kind, id)
  {
    if k == key {
      ExtendedTally(db.runs[key], [event], now, kind, id);
      OneTally(event, kind, id);
    }
  }

  lemma RowsWithout(tasks: map<nat, ActivityTask>, taken: set<nat>, key: RunKey, id: int)
    ensures ActivityRows(tasks - taken, key, id) == ActivityRows(tasks, key, id) - taken
  {
  }

  lemma WokenConserves(db: Db, e: Effect, db': Db)
    requires e.Woken? && Changes(db, db', e) && Grounded(db, e) && ActivitiesConserved(db) && TimersConserved(db)
    ensures ActivitiesConserved(db') && TimersConserved(db')
  {
    forall key, id ensures ActivityConserved(db', key, id) { WokenActivity(db, e, db', key, id); }
    forall key, id ensures TimerConserved(db', key, id) { WokenTimer(db, e, db', key, id); }
  }

  lemma WokenActivity(db: Db, e: Effect, db': Db, key: RunKey, id: int)
    requires e.Woken? && Changes(db, db', e) && Grounded(db, e) && ActivitiesConserved(db)
    ensures ActivityConserved(db', key, id)
  {
    hide Tally, Wake, Grounded;
    var taken := db.(activityTasks := db.activityTasks - e.activities, timers := db.timers - e.timers);
    assert ActivityConserved(db, key, id);
    WakeQueues(taken, e.key, e.cause, e.now);
    WakeRuns(taken, e.key, e.cause, e.now, ActivityStart, key, id);
    WakeRuns(taken, e.key, e.cause, e.now, ActivityEnd, key, id);
    RowsWithout(db.activityTasks, e.activities, key, id);
    TakenRows(db, e, key, id);
  }

  lemma WokenTimer(db: Db, e: Effect, db': Db, key: RunKey, id: int)
    requires e.Woken? && Changes(db, db', e) && Grounded(db, e) && TimersConserved(db)
    ensures TimerConserved(db', key, id)
  {
    hide Tally, Wake;
    var taken := db.(activityTasks := db.activityTasks - e.activities, timers := db.timers - e.timers);
    assert TimerConserved(db, key, id);
    WakeQueues(taken, e.key, e.cause, e.now);
    WakeRuns(taken, e.key, e.cause, e.now, TimerStart, key, id);
    WakeRuns(taken, e.key, e.cause, e.now, TimerEnd, key, id);
  }

  lemma WakeQueues(db: Db, key: RunKey, cause: Attributes, now: int)
    requires key in db.runs
    ensures Wake(db, key, cause, now).activityTasks == db.activityTasks && Wake(db, key, cause, now).timers == db.timers
  {
  }

  lemma TakenRows(db: Db, e: Effect, key: RunKey, id: int)
    requires e.Woken? && Grounded(db, e)
    ensures |ActivityRows(db.activityTasks, key, id)| == |ActivityRows(db.activityTasks, key, id) - e.activities| +
      if key == e.key && Is(e.cause, ActivityEnd, id) then 1 else 0
    ensures !Is(e.cause, ActivityStart, id)
  {
    var rows := ActivityRows(db.activityTasks, key, id);
    if e.activities != {} {
      var t :| e.activities == {t} && t in ActivityRows(db.activityTasks, e.key, e.cause.activityId);
      if key == e.key && Is(e.cause, ActivityEnd, id) {
        assert rows == (rows - {t}) + {t};
      } else {
        assert rows - {t} == rows;
      }
    } else {
      assert rows - e.activities == rows;
    }
  }

  // ------------------------------------------------------------------- new runs

  lemma NoRowsForNewRun(db: Db, key: RunKey, id: int)
    requires Sound(db) && key !in db.runs
    ensures ActivityRows(db.activityTasks, key, id) == {} && TimerKey(key, id) !in db.timers
  {
    forall t | t in db.activityTasks ensures db.activityTasks[t].key != key {
      assert ActivityRowSound(db.runs, db.activityTasks[t]);
    }
    assert TimerKey(key, id) in db.timers ==> TimerRowSound(db.runs, TimerKey(key, id), db.timers[TimerKey(key, id)]);
  }

  lemma CreateRunConserves(db: Db, key: RunKey, requestId: RequestId, workflowType: string, taskQueue: string, input: Payload,
    retryPolicy: Option<RetryPolicy>, executionTimeout: Option<int>, runTimeout: Option<int>,
    taskTimeout: Option<int>, continuedFrom: Option<Uuid>, now: int)
    requires Sound(db) && key !in db.runs && ActivitiesConserved(db) && TimersConserved(db)
    ensures var db' := CreateRun(db, key, requestId, workflowType, taskQueue, input, retryPolicy,
                                 executionTimeout, runTimeout, taskTimeout, continuedFrom, now);
      ActivitiesConserved(db') && TimersConserved(db')
  {
    var db' := CreateRun(db, key, requestId, workflowType, taskQueue, input, retryPolicy,
                         executionTimeout, runTimeout, taskTimeout, continuedFrom, now);
    forall k, id ensures ActivityConserved(db', k, id) && TimerConserved(db', k, id) {
      assert ActivityConserved(db, k, id) && TimerConserved(db, k, id);
      if k == key {
        NoRowsForNewRun(db, key, id);
        StartTally(db'.runs[key].history, id);
      }
    }
  }

  lemma StartTally(h: seq<HistoryEvent>, id: int)
    requires |h| == 2 && h[0].attributes.WorkflowExecutionStarted? && h[1].attributes.WorkflowTaskScheduled?
    ensures forall kind :: Tally(h, kind, id) == 0
  {
    forall kind ensures Tally(h, kind, id) == 0 {
      assert h[..1][..0] == [];
      assert Tally(h[..1], kind, id) == 0;
    }
  }

  // ---------------------------------------------------------------- completions

  /** How many of the commands schedule this activity or start this timer. */
  function CommandTally(cmds: seq<Command>, kind: Kind, id: int): nat
  {
    if cmds == [] then 0
    else
      var c := cmds[|cmds| - 1];
      CommandTally(cmds[..|cmds| - 1], kind, id) +
      if (kind == ActivityStart && c.ScheduleActivityTask? && c.activity.activityId == id)
         || (kind == TimerStart && c.StartTimer? && c.timerId == id) then 1 else 0
  }

  lemma {:induction false} EventsTally(cmds: seq<Command>, run: Run, newRunId: Uuid, kind: Kind, id: int)
    requires Unsupported !in cmds
    ensures AttributeTally([WorkflowTaskCompleted] + EventsOf(cmds, run, newRunId), kind, id) == CommandTally(cmds, kind, id)
  {
    var attrs := [WorkflowTaskCompleted] + EventsOf(cmds, run, newRunId);
    if cmds == [] {
      assert attrs == [WorkflowTaskCompleted];
      OneTally(WorkflowTaskCompleted, kind, id);
    } else {
      var n := |cmds| - 1;
      EventsTally(cmds[..n], run, newRunId, kind, id);
      assert attrs[..n + 1] == [WorkflowTaskCompleted] + EventsOf(cmds[..n], run, newRunId);
      assert attrs[n + 1] == EventOf(cmds[n], run, newRunId);
    }
  }

  lemma {:induction false} EnqueueActivitiesRows(db: Db, key: RunKey, queue: string, cmds: seq<Command>, first: int, now: int, k: RunKey, id: int)
    requires forall t :: t in db.activityTasks ==> t < db.nextTaskId
    ensures var db' := EnqueueActivities(db, key, queue, cmds, first, now);
      && (forall t :: t in db'.activityTasks ==> t < db'.nextTaskId)
      && |ActivityRows(db'.activityTasks, k, id)| ==
         |ActivityRows(db.activityTasks, k, id)| + if k == key then CommandTally(cmds, ActivityStart, id) else 0
  {
    if cmds != [] {
      var n := |cmds| - 1;
      EnqueueActivitiesRows(db, key, queue, cmds[..n], first, now, k, id);
      if cmds[n].ScheduleActivityTask? {
        EnqueueActivityRows(EnqueueActivities(db, key, queue, cmds[..n], first, now), key, queue, cmds[n].activity, first + n, now, k, id);
      }
    }
  }

  lemma EnqueueActivityRows(db: Db, key: RunKey, queue: string, a: ActivityCommand, scheduled: int, now: int, k: RunKey, id: int)
    requires forall t :: t in db.activityTasks ==> t < db.nextTaskId
    ensures var db' := EnqueueActivity(db, key, queue, a, scheduled, now);
      && (forall t :: t in db'.activityTasks ==> t < db'.nextTaskId)
      && |ActivityRows(db'.activityTasks, k, id)| ==
         |ActivityRows(db.activityTasks, k, id)| + if k == key && a.activityId == id then 1 else 0
  {
    var db' := EnqueueActivity(db, key, queue, a, scheduled, now);
    var rows := ActivityRows(db.activityTasks, k, id);
    if k == key && a.activityId == id {
      assert ActivityRows(db'.activityTasks, k, id) == rows + {db.nextTaskId};
    } else {
      assert ActivityRows(db'.activityTasks, k, id) == rows;
    }
  }

  lemma {:induction false} InsertTimersRows(timers: map<TimerKey, Timer>, key: RunKey, cmds: seq<Command>, first: int, now: int, k: RunKey, id: int)
    ensures InsertTimers(timers, key, cmds, first, now).Some? ==>
      (if TimerKey(k, id) in InsertTimers(timers, key, cmds, first, now).value then 1 else 0) ==
      (if TimerKey(k, id) in timers then 1 else 0) + if k == key then CommandTally(cmds, TimerStart, id) else 0
  {
    if cmds != [] { InsertTimersRows(timers, key, cmds[..|cmds| - 1], first, now, k, id); }
  }

  lemma RecordCommandsConserves(db: Db, key: RunKey, cmds: seq<Command>, newRunId: Uuid, now: int)
    requires Sound(db) && key in db.runs && Unsupported !in cmds && ActivitiesConserved(db) && TimersConserved(db)
    requires RecordCommands(db, key, cmds, newRunId, now).Some?
    ensures var db' := RecordCommands(db, key, cmds, newRunId, now).value; ActivitiesConserved(db') && TimersConserved(db')
  {
    var db' := RecordCommands(db, key, cmds, newRunId, now).value;
    forall k, id ensures ActivityConserved(db', k, id) && TimerConserved(db', k, id) {
      RecordedRunConserves(db, key, cmds, newRunId, now, k, id);
    }
  }

  lemma RecordedRunConserves(db: Db, key: RunKey, cmds: seq<Command>, newRunId: Uuid, now: int, k: RunKey, id: int)
    requires Sound(db) && key in db.runs && Unsupported !in cmds && ActivitiesConserved(db) && TimersConserved(db)
    requires RecordCommands(db, key, cmds, newRunId, now).Some?
    ensures var db' := RecordCommands(db, key, cmds, newRunId, now).value; ActivityConserved(db', k, id) && TimerConserved(db', k, id)
  {
    hide Sound, RecordCommands, EnqueueActivities, InsertTimers, Tally, CommandTally, EventsOf, ActivityRows;
    assert ActivityConserved(db, k, id) && TimerConserved(db, k, id);
    var first := db.runs[key].nextEventId + 1;
    RecordCommandsShape(db, key, cmds, newRunId, now);
    SoundTaskIds(db);
    EnqueueActivitiesRows(RecordedEvents(db, key, cmds, newRunId, now), key, db.runs[key].taskQueue, cmds, first, now, k, id);
    InsertTimersRows(db.timers, key, cmds, first, now, k, id);
    RecordedTally(db, key, cmds, newRunId, now, ActivityStart, k, id);
    RecordedTally(db, key, cmds, newRunId, now, ActivityEnd, k, id);
    RecordedTally(db, key, cmds, newRunId, now, TimerStart, k, id);
    RecordedTally(db, key, cmds, newRunId, now, TimerEnd, k, id);
    NoEndCommands(cmds, id);
  }

  function RecordedEvents(db: Db, key: RunKey, cmds: seq<Command>, newRunId: Uuid, now: int): Db
    requires key in db.runs && Unsupported !in cmds
  {
    Append(db, key, [WorkflowTaskCompleted] + EventsOf(cmds, db.runs[key], newRunId), now)
  }

  lemma RecordCommandsShape(db: Db, key: RunKey, cmds: seq<Command>, newRunId: Uuid, now: int)
    requires Sound(db) && key in db.runs && Unsupported !in cmds && RecordCommands(db, key, cmds, newRunId, now).Some?
    ensures var db' := RecordCommands(db, key, cmds, newRunId, now).value;
      var db1, first := RecordedEvents(db, key, cmds, newRunId, now), db.runs[key].nextEventId + 1;
      && db'.runs == db1.runs && db1.activityTasks == db.activityTasks && db1.nextTaskId == db.nextTaskId
      && db'.activityTasks == EnqueueActivities(db1, key, db.runs[key].taskQueue, cmds, first, now).activityTasks
      && InsertTimers(db.timers, key, cmds, first, now) == Some(db'.timers)
  {
    hide EnqueueActivities, InsertTimers, EventsOf, Extended, Sound;
    AppendSound(db, key, [WorkflowTaskCompleted] + EventsOf(cmds, db.runs[key], newRunId), now);
    CommandsRecorded(db, key, cmds, newRunId, now);
    EnqueueActivitiesSound(RecordedEvents(db, key, cmds, newRunId, now), key, db.runs[key].taskQueue, cmds,
                           db.runs[key].nextEventId + 1, now);
  }

  lemma RecordedTally(db: Db, key: RunKey, cmds: seq<Command>, newRunId: Uuid, now: int, kind: Kind, k: RunKey, id: int)
    requires key in db.runs && Unsupported !in cmds
    ensures Tally(HistoryOf(RecordedEvents(db, key, cmds, newRunId, now).runs, k), kind, id) ==
      Tally(HistoryOf(db.runs, k), kind, id) + if k == key then CommandTally(cmds, kind, id) else 0
  {
    hide Tally, CommandTally, Extended, EventsOf;
    if k == key { ResponseTally(db.runs[key], cmds, newRunId, now, kind, id); }
  }

  lemma ResponseTally(run: Run, cmds: seq<Command>, newRunId: Uuid, now: int, kind: Kind, id: int)
    requires Unsupported !in cmds
    ensures Tally(Extended(run, [WorkflowTaskCompleted] + EventsOf(cmds, run, newRunId), now).history, kind, id) ==
      Tally(run.history, kind, id) + CommandTally(cmds, kind, id)
  {
    ExtendedTally(run, [WorkflowTaskCompleted] + EventsOf(cmds, run, newRunId), now, kind, id);
    EventsTally(cmds, run, newRunId, kind, id);
  }

  lemma {:induction false} NoEndCommands(cmds: seq<Command>, id: int)
    ensures CommandTally(cmds, ActivityEnd, id) == 0 && CommandTally(cmds, TimerEnd, id) == 0
  {
    if cmds != [] { NoEndCommands(cmds[..|cmds| - 1], id); }
  }

  /** Same histories, rows and timers: nothing to show. */
  lemma SameCounts(db: Db, db': Db)
    requires ActivitiesConserved(db) && TimersConserved(db)
    requires forall k :: HistoryOf(db'.runs, k) == HistoryOf(db.runs, k)
    requires db'.timers == db.timers && db'.activityTasks.Keys == db.activityTasks.Keys
    requires forall t :: t in db.activityTasks ==>
      db'.activityTasks[t].key == db.activityTasks[t].key && db'.activityTasks[t].activityId == db.activityTasks[t].activityId
    ensures ActivitiesConserved(db') && TimersConserved(db')
  {
    forall k, id ensures ActivityConserved(db', k, id) && TimerConserved(db', k, id) {
      assert ActivityConserved(db, k, id) && TimerConserved(db, k, id);
      assert ActivityRows(db'.activityTasks, k, id) == ActivityRows(db.activityTasks, k, id);
    }
  }

  lemma CloseWithConserves(db: Db, key: RunKey, run: Run, c: Command, newRunId: Uuid, now: int)
    requires Sound(db) && key in db.runs && newRunId == db.nextUuid && Terminal(c) && ActivitiesConserved(db) && TimersConserved(db)
    ensures var db' := CloseWith(db, key, run, c, newRunId, now); ActivitiesConserved(db') && TimersConserved(db')
  {
    hide Sound, ActivitiesConserved, TimersConserved, CreateRun;
    var closed := CloseRun(db, key, StatusOf(c), now);
    var ready := closed.(nextUuid := newRunId + 2);
    SameCounts(db, closed);
    TouchRunSound(db, closed, key);
    FreshRun(closed, key.workflow);
    SpendUuids(closed, newRunId + 2);
    SameCounts(closed, ready);
    if c.ContinueAsNewWorkflowExecution? {
      var k := c.continuation;
      CreateRunConserves(ready, RunKey(key.workflow, newRunId), Synthetic(newRunId + 1),
        StringOrFallback(k.workflowType, run.workflowType), StringOrFallback(k.taskQueue, run.taskQueue),
        k.input, k.retryPolicy, run.executionTimeout,
        DurationOrFallback(k.runTimeout, run.runTimeout), DurationOrFallback(k.taskTimeout, run.taskTimeout),
        Some(key.runId), now);
    }
  }

  lemma ConcludeConserves(db: Db, key: RunKey, run: Run, cmds: seq<Command>, newRunId: Uuid, sticky: Option<Sticky>, now: int)
    requires Sound(db) && key in db.runs && newRunId == db.nextUuid && ActivitiesConserved(db) && TimersConserved(db)
    ensures var db' := Conclude(db, key, run, cmds, newRunId, sticky, now); ActivitiesConserved(db') && TimersConserved(db')
  {
    hide Sound, ActivitiesConserved, TimersConserved, CloseWith;
    match TerminalOf(cmds) {
      case Some(c) => CloseWithConserves(db, key, run, c, newRunId, now);
      case None => SameCounts(db, RegisterSticky(db, key, sticky, now));
    }
  }

  lemma RespondedConserves(db: Db, token: TaskToken, cmds: seq<Command>, sticky: Option<Sticky>, now: int)
    requires Sound(db) && ActivitiesConserved(db) && TimersConserved(db)
    requires CompleteWorkflowTask(db, token, cmds, sticky, now).Commit?
    ensures var db' := CompleteWorkflowTask(db, token, cmds, sticky, now).db; ActivitiesConserved(db') && TimersConserved(db')
  {
    var taken := db.(workflowTasks := db.workflowTasks - {token.taskId});
    SameCounts(db, taken);
    GrownRunsSound(db, taken);
    RecordCommandsSound(taken, token.key, cmds, db.nextUuid, now);
    RecordCommandsConserves(taken, token.key, cmds, db.nextUuid, now);
    hide Sound, RecordCommands, Conclude, ActivitiesConserved, TimersConserved;
    ConcludeConserves(RecordCommands(taken, token.key, cmds, db.nextUuid, now).value,
                      token.key, db.runs[token.key], cmds, db.nextUuid, sticky, now);
  }

  lemma CreatedConserves(db: Db, wk: WorkflowKey, p: StartParams, now: int)
    requires Sound(db) && ActivitiesConserved(db) && TimersConserved(db) && StartWorkflow(db, wk, p, now).Commit?
    ensures var db' := StartWorkflow(db, wk, p, now).db; ActivitiesConserved(db') && TimersConserved(db')
  {
    hide ActivitiesConserved, TimersConserved;
    var runId := db.nextUuid;
    SameCounts(db, db.(nextUuid := runId + 1));
    CreateRunConserves(db.(nextUuid := runId + 1), RunKey(wk, runId), Client(p.requestId), p.workflowType, p.taskQueue, p.input,
      p.retryPolicy, PositiveOrNone(p.executionTimeout), PositiveOrNone(p.runTimeout), PositiveOrNone(p.taskTimeout), None, now);
  }

  lemma NotedConserves(db: Db, key: RunKey, event: Attributes, now: int)
    requires key in db.runs && ActivitiesConserved(db) && TimersConserved(db)
    requires forall kind, id :: !Is(event, kind, id)
    ensures var db' := Append(db, key, [event], now); ActivitiesConserved(db') && TimersConserved(db')
  {
    hide Tally, Extended;
    var db' := Append(db, key, [event], now);
    forall k, id ensures ActivityConserved(db', k, id) && TimerConserved(db', k, id) {
      assert ActivityConserved(db, k, id) && TimerConserved(db, k, id);
      NoteRuns(db, key, event, now, ActivityStart, k, id);
      NoteRuns(db, key, event, now, ActivityEnd, k, id);
      NoteRuns(db, key, event, now, TimerStart, k, id);
      NoteRuns(db, key, event, now, TimerEnd, k, id);
    }
  }

  lemma EffectConserves(db: Db, db': Db, e: Effect)
    requires Sound(db) && Changes(db, db', e) && Grounded(db, e) && ActivitiesConserved(db) && TimersConserved(db)
    ensures ActivitiesConserved(db') && TimersConserved(db')
  {
    hide Sound, ActivitiesConserved, TimersConserved, CompleteWorkflowTask, StartWorkflow, Wake;
    match e {
      case Quiet => SameCounts(db, db');
      case Requeued(key, queue, scheduled, now) => SameCounts(db, db');
      case Noted(key, event, now) => NotedConserves(db, key, event, now);
      case Closed(key, reason, now) =>
        NotedConserves(db, key, WorkflowExecutionTerminated(reason), now);
        SameCounts(Append(db, key, [WorkflowExecutionTerminated(reason)], now), db');
      case Woken(_, _, _, _, _) => WokenConserves(db, e, db');
      case Created(wk, p, now) => CreatedConserves(db, wk, p, now);
      case Responded(token, cmds, sticky, now) => RespondedConserves(db, token, cmds, sticky, now);
    }
  }

  /** In every reachable state, for every run: each activity id has been scheduled
      exactly as often as it is waiting in a row or recorded as completed or
      failed, and each timer id has been started exactly as often as it is pending
      (at most once) or has fired; crashes, reaps, retries and stale responses
      included. */
  lemma {:induction false} ReachableConserved(steps: seq<Step>)
    ensures ActivitiesConserved(Reach(Init(), steps).db) && TimersConserved(Reach(Init(), steps).db)
  {
    if steps != [] {
      var w, s := Reach(Init(), steps[..|steps| - 1]), steps[|steps| - 1];
      ReachableConserved(steps[..|steps| - 1]);
      ReachableLeases(steps[..|steps| - 1]);
      StepConserves(w, s);
    } else {
      EmptyConserved();
    }
  }

  lemma EmptyConserved()
    ensures ActivitiesConserved(EmptyDb()) && TimersConserved(EmptyDb())
  {
    forall k, id ensures ActivityConserved(EmptyDb(), k, id) && TimerConserved(EmptyDb(), k, id) {
      assert ActivityRows(map[], k, id) == {};
    }
  }

  lemma StepConserves(w: World, s: Step)
    requires SoundWorld(w) && LeaseSafe(w) && ActivitiesConserved(w.db) && TimersConserved(w.db)
    ensures ActivitiesConserved(Apply(w, s).db) && TimersConserved(Apply(w, s).db)
  {
    hide Apply, Changes, Grounded, ActivitiesConserved, TimersConserved, Sound;
    StepEffect(w, s);
    StepGrounded(w, s);
    EffectConserves(w.db, Apply(w, s).db, EffectOf(w, s));
  }
}
