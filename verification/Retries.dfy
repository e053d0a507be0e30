/** How often an activity is retried. */
module Retries {
  import opened Events
  import opened Store
  import opened Backoff
  import opened World
  import opened Effects
  import opened Soundness
  import opened Leases
  import opened Conservation

  /** Rows keep their attempt number and limit; new rows start at attempt 1. */
  ghost predicate AttemptsKept(db: Db, db': Db)
  {
    forall id :: id in db'.activityTasks ==>
      if id in db.activityTasks
      then db'.activityTasks[id].attempt == db.activityTasks[id].attempt && db'.activityTasks[id].maxAttempts == db.activityTasks[id].maxAttempts
      else db'.activityTasks[id].attempt == 1
  }

  lemma {:induction false} EnqueueActivitiesAttempts(db: Db, key: RunKey, queue: string, cmds: seq<Command>, first: int, now: int)
    requires forall id :: id in db.activityTasks ==> id < db.nextTaskId
    ensures var db' := EnqueueActivities(db, key, queue, cmds, first, now);
      AttemptsKept(db, db') && db.nextTaskId <= db'.nextTaskId && forall id :: id in db'.activityTasks ==> id < db'.nextTaskId
  {
    if cmds != [] { EnqueueActivitiesAttempts(db, key, queue, cmds[..|cmds| - 1], first, now); }
  }

  lemma ConcludeActivities(db: Db, key: RunKey, run: Run, cmds: seq<Command>, newRunId: Uuid, sticky: Option<Sticky>, now: int)
    ensures Conclude(db, key, run, cmds, newRunId, sticky, now).activityTasks == db.activityTasks
  {
    hide Extended, StringOrFallback, DurationOrFallback, PositiveOrNone, TerminalOf;
  }

  lemma RespondedAttempts(db: Db, token: TaskToken, cmds: seq<Command>, sticky: Option<Sticky>, now: int)
    requires Sound(db) && CompleteWorkflowTask(db, token, cmds, sticky, now).Commit?
    ensures AttemptsKept(db, CompleteWorkflowTask(db, token, cmds, sticky, now).db)
  {
    hide EnqueueActivities, InsertTimers, Conclude, EventsOf, SoundRuns, Extended;
    var taken := db.(workflowTasks := db.workflowTasks - {token.taskId});
    var run := db.runs[token.key];
    var db1 := Append(taken, token.key, [WorkflowTaskCompleted] + EventsOf(cmds, run, db.nextUuid), now);
    EnqueueActivitiesAttempts(db1, token.key, run.taskQueue, cmds, run.nextEventId + 1, now);
    ConcludeActivities(RecordCommands(taken, token.key, cmds, db.nextUuid, now).value, token.key, run, cmds, db.nextUuid, sticky, now);
  }

  lemma EffectAttempts(db: Db, db': Db, e: Effect)
    requires Sound(db) && Changes(db, db', e) && !e.Quiet?
    ensures AttemptsKept(db, db')
  {
    hide CompleteWorkflowTask, Sound;
    match e {
      case Responded(token, cmds, sticky, now) => RespondedAttempts(db, token, cmds, sticky, now);
      case _ =>
    }
  }

  lemma QuietAttempts(w: World, s: Step)
    requires EffectOf(w, s).Quiet? && !s.FailActivity?
    ensures AttemptsKept(w.db, Apply(w, s).db)
  {
    hide StartWorkflow, CompleteWorkflowTask, Wake, Append, EnqueueWorkflowTask, Fetch, Delay;
  }

  /** The step puts this activity row back in the queue for another attempt. */
  ghost predicate Retried(w: World, s: Step, id: nat)
  {
    && s.FailActivity? && Apply(w, s) != w && id in Apply(w, s).db.activityTasks
    && s.lease in w.activityTickets && w.activityTickets[s.lease].token.taskId == id
  }

  ghost predicate WithinLimit(t: ActivityTask)
  {
    t.maxAttempts > 0 ==> t.attempt <= t.maxAttempts
  }

  /** A retry raises its own row's attempt number by one. */
  lemma RetryAttempt(db: Db, token: TaskToken, delay: int, now: int, id: nat)
    requires RetryActivityTask(db, token, delay, now).Commit? && id in db.activityTasks
    ensures var db' := RetryActivityTask(db, token, delay, now).db;
      && db'.activityTasks.Keys == db.activityTasks.Keys
      && (id != token.taskId ==> db'.activityTasks[id] == db.activityTasks[id])
      && db'.activityTasks[id].maxAttempts == db.activityTasks[id].maxAttempts
      && db'.activityTasks[id].attempt == db.activityTasks[id].attempt + if id == token.taskId then 1 else 0
  {
  }

  lemma TerminalFailureRows(db: Db, token: TaskToken, row: ActivityTask, failure: Failure, now: int)
    requires FailActivityTerminally(db, token, row, failure, now).Commit?
    ensures FailActivityTerminally(db, token, row, failure, now).db.activityTasks == db.activityTasks - {token.taskId}
  {
    hide Extended, StickyFields;
  }

  lemma FailActivityAttempts(w: World, s: Step, id: nat)
    requires LeaseSafe(w) && s.FailActivity? && id in Apply(w, s).db.activityTasks && id in w.db.activityTasks
    ensures var t, t' := w.db.activityTasks[id], Apply(w, s).db.activityTasks[id];
      && t'.maxAttempts == t.maxAttempts && t'.attempt == t.attempt + (if Retried(w, s, id) then 1 else 0)
      && (WithinLimit(t) ==> WithinLimit(t'))
  {
    hide RetryActivityTask, FailActivityTerminally, Delay, LeaseSafe;
    if Apply(w, s) != w {
      var token, row := w.activityTickets[s.lease].token, w.failReads[s.lease];
      if Retryable(row, s.failure) {
        RetryAttempt(w.db, token, Delay(row, s.platform), s.now, id);
        RetryHolds(w.db, token, Delay(row, s.platform), s.now);
        HeldRow(w, s.lease);
        ReadIsLeasedRow(w, s.lease);
      } else {
        TerminalFailureRows(w.db, token, row, s.failure, s.now);
      }
    }
  }

  lemma RetryHolds(db: Db, token: TaskToken, delay: int, now: int)
    requires RetryActivityTask(db, token, delay, now).Commit?
    ensures HoldsActivityTask(db, token)
  {
  }

  lemma FailActivityRows(w: World, s: Step, id: nat)
    requires s.FailActivity? && id in Apply(w, s).db.activityTasks
    ensures id in w.db.activityTasks
  {
    hide Delay, Extended, StickyFields;
  }

  /** Across any step a row's attempt number grows by one if the step retries it and
      stays otherwise, and never passes the limit. */
  lemma StepAttempts(w: World, s: Step, id: nat)
    requires SoundWorld(w) && LeaseSafe(w) && id in Apply(w, s).db.activityTasks
    ensures var t' := Apply(w, s).db.activityTasks[id];
      if id in w.db.activityTasks then
        var t := w.db.activityTasks[id];
        && t'.maxAttempts == t.maxAttempts && t'.attempt == t.attempt + (if Retried(w, s, id) then 1 else 0)
        && (WithinLimit(t) ==> WithinLimit(t'))
      else t'.attempt == 1 && w.db.nextTaskId <= id
  {
    hide Apply, Changes, LeaseSafe, Sound;
    StepEffect(w, s);
    EffectTaskIds(w.db, Apply(w, s).db, EffectOf(w, s));
    if s.FailActivity? {
      FailActivityRows(w, s, id);
      FailActivityAttempts(w, s, id);
    } else if EffectOf(w, s).Quiet? {
      QuietAttempts(w, s);
    } else {
      EffectAttempts(w.db, Apply(w, s).db, EffectOf(w, s));
    }
  }

  /** A retried row stays out of sight for the backoff of the attempt that failed, and
      no longer. */
  lemma RetryWaitsBackoff(w: World, s: Step, id: nat, at: int)
    requires LeaseSafe(w) && Retried(w, s, id) && id in w.db.activityTasks
    ensures var t, t' := w.db.activityTasks[id], Apply(w, s).db.activityTasks[id];
      ActivityTaskVisible(t', t.key.workflow.ns, t.taskQueue, at) <==> at >= s.now + Delay(t, s.platform)
  {
    hide FailActivityTerminally, Delay, LeaseSafe;
    var token, row := w.activityTickets[s.lease].token, w.failReads[s.lease];
    ReadIsLeasedRow(w, s.lease);
    if Retryable(row, s.failure) {
      HeldRow(w, s.lease);
    } else {
      TerminalFailureRows(w.db, token, row, s.failure, s.now);
    }
  }

  /** In every reachable state no activity row is past its attempt limit. */
  lemma {:induction false} ReachableWithinLimit(steps: seq<Step>, id: nat)
    requires id in Reach(Init(), steps).db.activityTasks
    ensures WithinLimit(Reach(Init(), steps).db.activityTasks[id])
  {
    hide Apply, SoundWorld, LeaseSafe;
    if steps != [] {
      var pre, s := steps[..|steps| - 1], steps[|steps| - 1];
      ReachableLeases(pre);
      StepAttempts(Reach(Init(), pre), s, id);
      if id in Reach(Init(), pre).db.activityTasks { ReachableWithinLimit(pre, id); }
    }
  }

  /** How many steps of a run from `w` retried the row. */
  ghost function RetryCount(w: World, steps: seq<Step>, id: nat): nat
  {
    if steps == [] then 0
    else RetryCount(w, steps[..|steps| - 1], id) + if Retried(Reach(w, steps[..|steps| - 1]), steps[|steps| - 1], id) then 1 else 0
  }

  /** From any state, whatever happens: a row at attempt n of m is retried at most
      m - n times, and while it lives its attempt number counts the retries. */
  lemma {:induction false} RetriesBounded(w: World, steps: seq<Step>, id: nat)
    requires SoundWorld(w) && LeaseSafe(w) && id in w.db.activityTasks && WithinLimit(w.db.activityTasks[id])
    ensures var w', t := Reach(w, steps), w.db.activityTasks[id];
      && SoundWorld(w') && LeaseSafe(w') && w.db.nextTaskId <= w'.db.nextTaskId
      && (t.maxAttempts > 0 ==> RetryCount(w, steps, id) <= t.maxAttempts - t.attempt)
      && (id in w'.db.activityTasks ==>
            && w'.db.activityTasks[id].attempt == t.attempt + RetryCount(w, steps, id)
            && w'.db.activityTasks[id].maxAttempts == t.maxAttempts && WithinLimit(w'.db.activityTasks[id]))
  {
    hide Apply, Sound, LeaseSafe;
    if steps != [] {
      var pre, s := steps[..|steps| - 1], steps[|steps| - 1];
      var v := Reach(w, pre);
      RetriesBounded(w, pre, id);
      StepSound(v, s);
      StepLeases(v, s);
      CountersGrow(v, s);
      SoundTaskIds(w.db);
      if id in Apply(v, s).db.activityTasks { StepAttempts(v, s, id); }
    }
  }
}
