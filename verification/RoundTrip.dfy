/** What becomes of the commands of a workflow task response, in the tables and
    when the history is next loaded. */
module RoundTrip {
  import opened Events
  import Replayer
  import opened StickyReplay
  import opened Store
  import opened Soundness
  import opened Leases
  import opened Conservation
  import opened ReplaySafety

  // ------------------------------------------------------------- activity rows

  /** How many of the commands schedule an activity. */
  function Schedules(cmds: seq<Command>): nat
  {
    if cmds == [] then 0 else Schedules(cmds[..|cmds| - 1]) + if cmds[|cmds| - 1].ScheduleActivityTask? then 1 else 0
  }

  /** Row `id` is that of command i, recorded as event first + i. */
  ghost predicate RowFor(rows: map<nat, ActivityTask>, id: nat, key: RunKey, queue: string, c: Command, scheduled: int, now: int)
  {
    c.ScheduleActivityTask? && id in rows && rows[id] == ActivityRow(key, queue, c.activity, scheduled, now)
  }

  /** Old rows are untouched; the schedule commands have one new row each, with
      consecutive task ids from `next`; there are no other new rows. */
  ghost predicate OneRowEach(prior: map<nat, ActivityTask>, rows: map<nat, ActivityTask>, next: nat, key: RunKey, queue: string,
    cmds: seq<Command>, first: int, now: int)
  {
    && (forall id :: id in prior ==> id in rows && rows[id] == prior[id])
    && (forall i :: 0 <= i < |cmds| && cmds[i].ScheduleActivityTask? ==>
          RowFor(rows, next + Schedules(cmds[..i]), key, queue, cmds[i], first + i, now))
    && (forall id :: id in rows && id !in prior ==> next <= id < next + Schedules(cmds))
  }

  lemma {:induction false} EnqueueOneRowEach(db: Db, key: RunKey, queue: string, cmds: seq<Command>, first: int, now: int)
    requires forall id :: id in db.activityTasks ==> id < db.nextTaskId
    ensures var db' := EnqueueActivities(db, key, queue, cmds, first, now);
      && db'.nextTaskId == db.nextTaskId + Schedules(cmds) && (forall id :: id in db'.activityTasks ==> id < db'.nextTaskId)
      && OneRowEach(db.activityTasks, db'.activityTasks, db.nextTaskId, key, queue, cmds, first, now)
  {
    hide ActivityRow;
    if cmds != [] {
      var n := |cmds| - 1;
      EnqueueOneRowEach(db, key, queue, cmds[..n], first, now);
      hide OneRowEach;
      NextRow(db.activityTasks, EnqueueActivities(db, key, queue, cmds[..n], first, now).activityTasks, db.nextTaskId, key, queue, cmds, first, now);
    }
  }

  lemma {:induction false} NextRow(prior: map<nat, ActivityTask>, mid: map<nat, ActivityTask>, next: nat, key: RunKey, queue: string,
    cmds: seq<Command>, first: int, now: int)
    requires cmds != [] && OneRowEach(prior, mid, next, key, queue, cmds[..|cmds| - 1], first, now)
    requires forall id :: id in mid ==> id < next + Schedules(cmds[..|cmds| - 1])
    ensures var n := |cmds| - 1;
      OneRowEach(prior, if cmds[n].ScheduleActivityTask?
                        then mid[next + Schedules(cmds[..n]) := ActivityRow(key, queue, cmds[n].activity, first + n, now)] else mid,
                 next, key, queue, cmds, first, now)
  {
    hide OneRowEach, ActivityRow;
    var n := |cmds| - 1;
    if cmds[n].ScheduleActivityTask? {
      OneMoreRow(prior, mid, next, key, queue, cmds, first, now, ActivityRow(key, queue, cmds[n].activity, first + n, now));
    } else {
      NoMoreRow(prior, mid, next, key, queue, cmds, first, now);
    }
  }

  lemma {:induction false} EarlierRows(mid: map<nat, ActivityTask>, next: nat, key: RunKey, queue: string, cmds: seq<Command>, first: int, now: int)
    requires cmds != []
    requires var pre := cmds[..|cmds| - 1]; forall i :: 0 <= i < |pre| && pre[i].ScheduleActivityTask? ==>
      RowFor(mid, next + Schedules(pre[..i]), key, queue, pre[i], first + i, now)
    ensures forall i :: 0 <= i < |cmds| - 1 && cmds[i].ScheduleActivityTask? ==>
      RowFor(mid, next + Schedules(cmds[..i]), key, queue, cmds[i], first + i, now)
  {
    hide RowFor, Schedules;
    var pre := cmds[..|cmds| - 1];
    forall i | 0 <= i < |cmds| - 1 && cmds[i].ScheduleActivityTask?
      ensures RowFor(mid, next + Schedules(cmds[..i]), key, queue, cmds[i], first + i, now)
    {
      assert pre[..i] == cmds[..i] && pre[i] == cmds[i];
    }
  }

  lemma {:induction false} NoMoreRow(prior: map<nat, ActivityTask>, mid: map<nat, ActivityTask>, next: nat, key: RunKey, queue: string,
    cmds: seq<Command>, first: int, now: int)
    requires cmds != [] && OneRowEach(prior, mid, next, key, queue, cmds[..|cmds| - 1], first, now)
    requires !cmds[|cmds| - 1].ScheduleActivityTask?
    ensures OneRowEach(prior, mid, next, key, queue, cmds, first, now)
  {
    hide RowFor;
    EarlierRows(mid, next, key, queue, cmds, first, now);
  }

  lemma {:induction false} OneMoreRow(prior: map<nat, ActivityTask>, mid: map<nat, ActivityTask>, next: nat, key: RunKey, queue: string,
    cmds: seq<Command>, first: int, now: int, row: ActivityTask)
    requires cmds != [] && OneRowEach(prior, mid, next, key, queue, cmds[..|cmds| - 1], first, now)
    requires cmds[|cmds| - 1].ScheduleActivityTask?
    requires row == ActivityRow(key, queue, cmds[|cmds| - 1].activity, first + |cmds| - 1, now)
    requires forall id :: id in mid ==> id < next + Schedules(cmds[..|cmds| - 1])
    ensures OneRowEach(prior, mid[next + Schedules(cmds[..|cmds| - 1]) := row], next, key, queue, cmds, first, now)
  {
    hide ActivityRow;
    var n := |cmds| - 1;
    EarlierRows(mid, next, key, queue, cmds, first, now);
    var rows := mid[next + Schedules(cmds[..n]) := row];
    forall i | 0 <= i < |cmds| && cmds[i].ScheduleActivityTask?
      ensures RowFor(rows, next + Schedules(cmds[..i]), key, queue, cmds[i], first + i, now)
    {
      if i < n { assert RowFor(mid, next + Schedules(cmds[..i]), key, queue, cmds[i], first + i, now); }
    }
  }

  // ---------------------------------------------------------------- timer rows

  /** No timer the commands start is pending already or started twice. */
  ghost predicate FreshTimers(timers: map<TimerKey, Timer>, key: RunKey, cmds: seq<Command>)
  {
    && (forall i :: 0 <= i < |cmds| && cmds[i].StartTimer? ==> TimerKey(key, cmds[i].timerId) !in timers)
    && (forall i, j :: 0 <= i < j < |cmds| && cmds[i].StartTimer? && cmds[j].StartTimer? ==> cmds[i].timerId != cmds[j].timerId)
  }

  ghost predicate StartedBy(key: RunKey, cmds: seq<Command>, tk: TimerKey)
  {
    exists i :: 0 <= i < |cmds| && cmds[i].StartTimer? && tk == TimerKey(key, cmds[i].timerId)
  }

  /** Each start-timer command has its row; all other rows are as before. */
  ghost predicate OneTimerEach(timers: map<TimerKey, Timer>, timers': map<TimerKey, Timer>, key: RunKey, cmds: seq<Command>, first: int, now: int)
  {
    && (forall i :: 0 <= i < |cmds| && cmds[i].StartTimer? ==>
          var tk := TimerKey(key, cmds[i].timerId); tk in timers' && timers'[tk] == Timer(now + cmds[i].duration, first + i))
    && (forall tk :: tk in timers ==> tk in timers' && timers'[tk] == timers[tk])
    && (forall tk :: tk in timers' ==> tk in timers || StartedBy(key, cmds, tk))
  }

  lemma {:induction false} InsertTimersIff(timers: map<TimerKey, Timer>, key: RunKey, cmds: seq<Command>, first: int, now: int)
    ensures InsertTimers(timers, key, cmds, first, now).Some? <==> FreshTimers(timers, key, cmds)
    ensures InsertTimers(timers, key, cmds, first, now).Some? ==>
      OneTimerEach(timers, InsertTimers(timers, key, cmds, first, now).value, key, cmds, first, now)
  {
    hide FreshTimers, OneTimerEach;
    if cmds == [] {
      NoTimersYet(timers, key, cmds, first, now);
    } else {
      var n := |cmds| - 1;
      InsertTimersIff(timers, key, cmds[..n], first, now);
      match InsertTimers(timers, key, cmds[..n], first, now) {
        case None => FewerTimers(timers, key, cmds);
        case Some(mid) => OneMoreTimer(timers, mid, key, cmds, first, now);
      }
    }
  }

  lemma NoTimersYet(timers: map<TimerKey, Timer>, key: RunKey, cmds: seq<Command>, first: int, now: int)
    requires cmds == []
    ensures FreshTimers(timers, key, cmds) && OneTimerEach(timers, timers, key, cmds, first, now)
  {
  }

  lemma FewerTimers(timers: map<TimerKey, Timer>, key: RunKey, cmds: seq<Command>)
    requires cmds != []
    ensures FreshTimers(timers, key, cmds) ==> FreshTimers(timers, key, cmds[..|cmds| - 1])
  {
  }

  lemma OneMoreTimer(timers: map<TimerKey, Timer>, mid: map<TimerKey, Timer>, key: RunKey, cmds: seq<Command>, first: int, now: int)
    requires cmds != []
    requires var pre := cmds[..|cmds| - 1]; FreshTimers(timers, key, pre) && OneTimerEach(timers, mid, key, pre, first, now)
    ensures var n := |cmds| - 1; var c := cmds[n];
      if !c.StartTimer? then FreshTimers(timers, key, cmds) && OneTimerEach(timers, mid, key, cmds, first, now)
      else
        var tk := TimerKey(key, c.timerId);
        && (FreshTimers(timers, key, cmds) <==> tk !in mid)
        && (tk !in mid ==> OneTimerEach(timers, mid[tk := Timer(now + c.duration, first + n)], key, cmds, first, now))
  {
    var n := |cmds| - 1;
    var pre, c := cmds[..n], cmds[n];
    forall tk | StartedBy(key, pre, tk) ensures StartedBy(key, cmds, tk) {
      var i :| 0 <= i < |pre| && pre[i].StartTimer? && tk == TimerKey(key, pre[i].timerId);
      assert cmds[i].StartTimer? && tk == TimerKey(key, cmds[i].timerId);
    }
    if c.StartTimer? {
      var tk := TimerKey(key, c.timerId);
      assert StartedBy(key, cmds, tk);
      if tk in mid && tk !in timers {
        var i :| 0 <= i < |pre| && pre[i].StartTimer? && tk == TimerKey(key, pre[i].timerId);
        assert cmds[i].StartTimer? && cmds[i].timerId == cmds[n].timerId;
      }
      forall i | 0 <= i < n && cmds[i].StartTimer? ensures TimerKey(key, cmds[i].timerId) in mid { assert pre[i] == cmds[i]; }
    }
  }

  // ------------------------------------------------------- accepted and rejected

  /** At most one terminal command; a continue-as-new comes without new work. */
  ghost predicate WellFormed(cmds: seq<Command>)
  {
    && Unsupported !in cmds
    && (forall i, j :: 0 <= i < j < |cmds| ==> !(Terminal(cmds[i]) && Terminal(cmds[j])))
    && (forall i, j :: 0 <= i < |cmds| && 0 <= j < |cmds| ==> !(cmds[i].ContinueAsNewWorkflowExecution? && Scheduling(cmds[j])))
  }

  lemma {:induction false} CountZeroIff(cmds: seq<Command>, f: Command -> bool)
    ensures Count(cmds, f) == 0 <==> forall i :: 0 <= i < |cmds| ==> !f(cmds[i])
  {
    if cmds != [] {
      var pre := cmds[..|cmds| - 1];
      CountZeroIff(pre, f);
      assert forall i :: 0 <= i < |pre| ==> pre[i] == cmds[i];
    }
  }

  lemma {:induction false} CountOneIff(cmds: seq<Command>, f: Command -> bool)
    ensures Count(cmds, f) <= 1 <==> forall i, j :: 0 <= i < j < |cmds| ==> !(f(cmds[i]) && f(cmds[j]))
  {
    if cmds != [] {
      var pre := cmds[..|cmds| - 1];
      CountOneIff(pre, f);
      CountZeroIff(pre, f);
      assert forall i :: 0 <= i < |pre| ==> pre[i] == cmds[i];
    }
  }

  lemma RejectionIff(cmds: seq<Command>)
    ensures Rejection(cmds) == None <==> WellFormed(cmds)
  {
    CountOneIff(cmds, Terminal);
    CountZeroIff(cmds, Scheduling);
    forall i | 0 <= i < |cmds| ensures cmds[i] in cmds { }
  }

  /** A response is accepted exactly when its token still holds its row, the run
      exists, its commands are well formed and its timers are new. */
  lemma AcceptedIff(db: Db, token: TaskToken, cmds: seq<Command>, sticky: Option<Sticky>, now: int)
    requires Sound(db)
    ensures CompleteWorkflowTask(db, token, cmds, sticky, now).Commit? <==>
      && HoldsWorkflowTask(db, token) && token.key in db.runs && WellFormed(cmds) && FreshTimers(db.timers, token.key, cmds)
  {
    RejectionIff(cmds);
    if HoldsWorkflowTask(db, token) && token.key in db.runs && WellFormed(cmds) {
      var taken := db.(workflowTasks := db.workflowTasks - {token.taskId});
      GrownRunsSound(db, taken);
      RecordedIff(taken, token.key, cmds, db.nextUuid, now);
    }
    hide Rejection, RecordCommands, WellFormed, FreshTimers, Conclude, Sound;
  }

  /** The error of a rejected response, in the order the checks are made. */
  lemma RejectedWith(db: Db, token: TaskToken, cmds: seq<Command>, sticky: Option<Sticky>, now: int)
    requires CompleteWorkflowTask(db, token, cmds, sticky, now).Rollback?
    ensures CompleteWorkflowTask(db, token, cmds, sticky, now).error ==
      if !(token.taskId in db.workflowTasks && db.workflowTasks[token.taskId].lease == Some(token.lease)) then LeaseExpired
      else if token.key !in db.runs then NotFound
      else if Unsupported in cmds then UnsupportedCommand
      else if exists i, j :: 0 <= i < j < |cmds| && Terminal(cmds[i]) && Terminal(cmds[j]) then ManyTerminals
      else if !WellFormed(cmds) then MixedContinuation
      else DuplicateTimer
  {
    hide RecordCommands, Conclude;
    CountOneIff(cmds, Terminal);
    CountZeroIff(cmds, Scheduling);
    forall i | 0 <= i < |cmds| ensures cmds[i] in cmds { }
  }

  lemma RecordedIff(db: Db, key: RunKey, cmds: seq<Command>, newRunId: Uuid, now: int)
    requires Sound(db) && key in db.runs && Unsupported !in cmds
    ensures RecordCommands(db, key, cmds, newRunId, now).Some? <==> FreshTimers(db.timers, key, cmds)
  {
    hide Sound, InsertTimers, EnqueueActivities, EventsOf, Extended, FreshTimers;
    AppendSound(db, key, [WorkflowTaskCompleted] + EventsOf(cmds, db.runs[key], newRunId), now);
    CommandsRecorded(db, key, cmds, newRunId, now);
    EnqueueActivitiesSound(RecordedEvents(db, key, cmds, newRunId, now), key, db.runs[key].taskQueue, cmds,
                           db.runs[key].nextEventId + 1, now);
    InsertTimersIff(db.timers, key, cmds, db.runs[key].nextEventId + 1, now);
  }

  // --------------------------------------------------------------- the round trip

  /** The history gains WorkflowTaskCompleted and then one event per command, in
      order. */
  ghost predicate RecordsResponse(h: seq<HistoryEvent>, h': seq<HistoryEvent>, run: Run, cmds: seq<Command>, newRunId: Uuid)
    requires Unsupported !in cmds
  {
    && |h'| == |h| + 1 + |cmds| && h <= h' && Dense(h') && h'[|h|].attributes == WorkflowTaskCompleted
    && forall i :: 0 <= i < |cmds| ==> h'[|h| + 1 + i].attributes == EventOf(cmds[i], run, newRunId)
  }

  /** Loading the history afterwards remembers these calls and then those. */
  ghost predicate LoadsCommands(h: seq<HistoryEvent>, h': seq<HistoryEvent>, cmds: seq<Command>)
  {
    var e, e' := Replayer.FullLoad(h), Replayer.FullLoad(h');
    && e'.scheduledActivities == e.scheduledActivities + CommandedActivities(cmds)
    && e'.scheduledTimers == e.scheduledTimers + CommandedTimers(cmds)
  }

  lemma CommandRoundTrip(db: Db, token: TaskToken, cmds: seq<Command>, sticky: Option<Sticky>, now: int)
    requires Sound(db) && CompleteWorkflowTask(db, token, cmds, sticky, now).Commit?
    ensures token.key in db.runs && Unsupported !in cmds
    ensures var db', run := CompleteWorkflowTask(db, token, cmds, sticky, now).db, db.runs[token.key];
      && RecordsResponse(run.history, HistoryOf(db'.runs, token.key), run, cmds, db.nextUuid)
      && LoadsCommands(run.history, HistoryOf(db'.runs, token.key), cmds)
      && OneRowEach(db.activityTasks, db'.activityTasks, db.nextTaskId, token.key, run.taskQueue, cmds, run.nextEventId + 1, now)
      && OneTimerEach(db.timers, db'.timers, token.key, cmds, run.nextEventId + 1, now)
  {
    hide Sound, CompleteWorkflowTask, OneRowEach, OneTimerEach, LoadsCommands, RecordsResponse, ResponseEvents;
    RespondedHistories(db, token, cmds, sticky, now, token.key);
    SoundRun(db, token.key);
    ResponseShape(db.runs[token.key], cmds, db.nextUuid, now);
    ResponseLoads(db.runs[token.key], cmds, db.nextUuid, now);
    ResponseRows(db, token, cmds, sticky, now);
  }

  lemma SoundRun(db: Db, key: RunKey)
    requires Sound(db) && key in db.runs
    ensures GoodRun(db.runs[key])
  {
  }

  lemma ResponseShape(run: Run, cmds: seq<Command>, newRunId: Uuid, now: int)
    requires GoodRun(run) && Unsupported !in cmds
    ensures RecordsResponse(run.history, run.history + ResponseEvents(run, cmds, newRunId, now), run, cmds, newRunId)
  {
    hide EventOf, EventsOf, Stamp, GoodRun, Dense;
    var attrs := [WorkflowTaskCompleted] + EventsOf(cmds, run, newRunId);
    AppendedShape(run, attrs, now);
    var h, h' := run.history, Extended(run, attrs, now).history;
    assert h'[|h| + 0].attributes == attrs[0];
    forall i | 0 <= i < |cmds| ensures h'[|h| + 1 + i].attributes == EventOf(cmds[i], run, newRunId) {
      assert h'[|h| + (1 + i)].attributes == attrs[1 + i];
    }
  }

  lemma AppendedShape(run: Run, attrs: seq<Attributes>, now: int)
    requires GoodRun(run)
    ensures var h' := Extended(run, attrs, now).history;
      && Dense(h') && |h'| == |run.history| + |attrs| && run.history <= h'
      && forall i :: 0 <= i < |attrs| ==> h'[|run.history| + i].attributes == attrs[i]
  {
    ExtendedGood(run, attrs, now);
  }

  lemma ResponseLoads(run: Run, cmds: seq<Command>, newRunId: Uuid, now: int)
    requires Unsupported !in cmds
    ensures LoadsCommands(run.history, run.history + ResponseEvents(run, cmds, newRunId, now), cmds)
  {
    hide ResponseEvents, CommandedActivities, CommandedTimers;
    CommandsReadBack(run, cmds, newRunId, now);
    RecordedConcat(run.history, ResponseEvents(run, cmds, newRunId, now));
  }

  lemma RecordedRows(db: Db, key: RunKey, cmds: seq<Command>, newRunId: Uuid, now: int)
    requires Sound(db) && key in db.runs && Unsupported !in cmds && RecordCommands(db, key, cmds, newRunId, now).Some?
    ensures var db', run := RecordCommands(db, key, cmds, newRunId, now).value, db.runs[key];
      && OneRowEach(db.activityTasks, db'.activityTasks, db.nextTaskId, key, run.taskQueue, cmds, run.nextEventId + 1, now)
      && OneTimerEach(db.timers, db'.timers, key, cmds, run.nextEventId + 1, now)
  {
    hide Sound, RecordCommands, OneRowEach, OneTimerEach, InsertTimers, EnqueueActivities, EventsOf, Extended;
    var run := db.runs[key];
    SoundTaskIds(db);
    RecordCommandsShape(db, key, cmds, newRunId, now);
    EnqueueOneRowEach(RecordedEvents(db, key, cmds, newRunId, now), key, run.taskQueue, cmds, run.nextEventId + 1, now);
    InsertTimersIff(db.timers, key, cmds, run.nextEventId + 1, now);
  }

  lemma ResponseRows(db: Db, token: TaskToken, cmds: seq<Command>, sticky: Option<Sticky>, now: int)
    requires Sound(db) && CompleteWorkflowTask(db, token, cmds, sticky, now).Commit? && token.key in db.runs
    ensures var db', run := CompleteWorkflowTask(db, token, cmds, sticky, now).db, db.runs[token.key];
      && OneRowEach(db.activityTasks, db'.activityTasks, db.nextTaskId, token.key, run.taskQueue, cmds, run.nextEventId + 1, now)
      && OneTimerEach(db.timers, db'.timers, token.key, cmds, run.nextEventId + 1, now)
  {
    hide Sound, CompleteWorkflowTask, RecordCommands, Conclude, OneRowEach, OneTimerEach, Extended, EventsOf;
    var mid := AcceptedResponse(db, token, cmds, sticky, now);
    RecordedRows(db.(workflowTasks := db.workflowTasks - {token.taskId}), token.key, cmds, db.nextUuid, now);
    ConcludeQueues(mid, token.key, db.runs[token.key], cmds, db.nextUuid, sticky, now);
  }

  lemma ConcludeQueues(db: Db, key: RunKey, run: Run, cmds: seq<Command>, newRunId: Uuid, sticky: Option<Sticky>, now: int)
    ensures var db' := Conclude(db, key, run, cmds, newRunId, sticky, now);
      db'.activityTasks == db.activityTasks && db'.timers == db.timers
  {
    hide Extended, StringOrFallback, DurationOrFallback, PositiveOrNone, TerminalOf;
  }
}
