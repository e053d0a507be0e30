/** Which worker gets a task, and that in the end any worker can. */
module Routing {
  import opened Events
  import opened Store
  import opened Backoff
  import opened World
  import opened Effects
  import opened Soundness
  import opened Leases
  import opened Continuations

  /** A task reserved for one worker says until when. */
  ghost predicate BoundedReservation(t: WorkflowTask)
  {
    t.preferredWorker.Some? ==> t.stickyDeadline.Some?
  }

  ghost predicate NoneReservedForever(db: Db)
  {
    forall id :: id in db.workflowTasks ==> BoundedReservation(db.workflowTasks[id])
  }

  ghost predicate SameReservation(a: WorkflowTask, b: WorkflowTask)
  {
    a.preferredWorker == b.preferredWorker && a.stickyDeadline == b.stickyDeadline
  }

  /** Rows keep their reservation; new rows have a bounded one. */
  ghost predicate RoutingKept(db: Db, db': Db)
  {
    forall id :: id in db'.workflowTasks ==>
      || BoundedReservation(db'.workflowTasks[id])
      || (id in db.workflowTasks && SameReservation(db'.workflowTasks[id], db.workflowTasks[id]))
  }

  lemma RespondedRouting(db: Db, token: TaskToken, cmds: seq<Command>, sticky: Option<Sticky>, now: int)
    requires Sound(db) && CompleteWorkflowTask(db, token, cmds, sticky, now).Commit?
    ensures RoutingKept(db, CompleteWorkflowTask(db, token, cmds, sticky, now).db)
  {
    hide Sound, CompleteWorkflowTask, Conclude, Extended, EventsOf;
    var mid := AcceptedResponse(db, token, cmds, sticky, now);
    RecordCommandsSound(db.(workflowTasks := db.workflowTasks - {token.taskId}), token.key, cmds, db.nextUuid, now);
    ConcludeRouting(mid, token.key, db.runs[token.key], cmds, db.nextUuid, sticky, now);
  }

  lemma ConcludeRouting(db: Db, key: RunKey, run: Run, cmds: seq<Command>, newRunId: Uuid, sticky: Option<Sticky>, now: int)
    ensures RoutingKept(db, Conclude(db, key, run, cmds, newRunId, sticky, now))
  {
    hide Extended, StringOrFallback, DurationOrFallback, PositiveOrNone, TerminalOf;
  }

  lemma EffectRouting(db: Db, db': Db, e: Effect)
    requires Sound(db) && Changes(db, db', e) && !e.Quiet?
    ensures RoutingKept(db, db')
  {
    hide Sound, CompleteWorkflowTask, Extended;
    match e {
      case Responded(token, cmds, sticky, now) => RespondedRouting(db, token, cmds, sticky, now);
      case _ =>
    }
  }

  lemma QuietRouting(w: World, s: Step)
    requires EffectOf(w, s).Quiet?
    ensures RoutingKept(w.db, Apply(w, s).db)
  {
    hide StartWorkflow, CompleteWorkflowTask, Wake, Append, EnqueueWorkflowTask, Fetch, Delay, WorkflowTaskVisible, ActivityTaskVisible;
  }

  lemma {:induction false} ReachableRouting(steps: seq<Step>)
    ensures NoneReservedForever(Reach(Init(), steps).db)
  {
    hide Apply, Changes, SoundWorld;
    if steps != [] {
      var pre, s := steps[..|steps| - 1], steps[|steps| - 1];
      var w := Reach(Init(), pre);
      ReachableRouting(pre);
      ReachableSound(pre);
      SoundStore(w);
      StepEffect(w, s);
      if EffectOf(w, s).Quiet? { QuietRouting(w, s); } else { EffectRouting(w.db, Apply(w, s).db, EffectOf(w, s)); }
    }
  }

  // --------------------------------------------------------------- nothing is stuck

  /** From this time on the row is visible once its lease is reaped. */
  function VisibleFrom(t: WorkflowTask): int
  {
    var a := if t.stickyDeadline.Some? && t.stickyDeadline.value + 1 > t.visibleAt then t.stickyDeadline.value + 1 else t.visibleAt;
    if t.leaseExpiry.Some? && t.leaseExpiry.value + 1 > a then t.leaseExpiry.value + 1 else a
  }

  /** No reachable state strands a workflow task: whatever worker crashed or holds the
      reservation, there is a time from which the reaper's next pass and any worker's
      next poll lease the row anew, with a fresh token. */
  lemma NoStrandedWorkflowTask(steps: seq<Step>, id: nat, worker: string, now: int)
    requires var db := Reach(Init(), steps).db; id in db.workflowTasks && now >= VisibleFrom(db.workflowTasks[id])
    ensures var w := Reach(Init(), steps);
      var t := w.db.workflowTasks[id];
      var w' := Apply(Apply(w, Reap(now)), Dequeue(id, t.key.workflow.ns, t.taskQueue, worker, now));
      && id in w'.db.workflowTasks && w'.db.workflowTasks[id].started && w'.db.workflowTasks[id].lease == Some(w.db.nextUuid)
      && w.db.nextUuid in w'.tickets && w'.tickets[w.db.nextUuid].token == TaskToken(t.key, id, w.db.nextUuid)
  {
    hide Reach, Apply;
    var w := Reach(Init(), steps);
    ReachableRouting(steps);
    ReachableLeases(steps);
    assert WorkflowLease(w, id) && BoundedReservation(w.db.workflowTasks[id]);
    ReapThenDequeue(w, id, worker, now);
  }

  lemma ReapThenDequeue(w: World, id: nat, worker: string, now: int)
    requires id in w.db.workflowTasks && now >= VisibleFrom(w.db.workflowTasks[id]) && BoundedReservation(w.db.workflowTasks[id])
    requires var t := w.db.workflowTasks[id]; (t.started <==> t.lease.Some?) && (t.started <==> t.leaseExpiry.Some?)
    ensures var t := w.db.workflowTasks[id];
      var w' := Apply(Apply(w, Reap(now)), Dequeue(id, t.key.workflow.ns, t.taskQueue, worker, now));
      && id in w'.db.workflowTasks && w'.db.workflowTasks[id].started && w'.db.workflowTasks[id].lease == Some(w.db.nextUuid)
      && w.db.nextUuid in w'.tickets && w'.tickets[w.db.nextUuid].token == TaskToken(t.key, id, w.db.nextUuid)
  {
    hide ReapWorkflowTasks, WorkflowTaskVisible, VisibleFrom;
    ReapedVisible(w.db, id, worker, now);
  }

  lemma ReapedVisible(db: Db, id: nat, worker: string, now: int)
    requires id in db.workflowTasks && now >= VisibleFrom(db.workflowTasks[id]) && BoundedReservation(db.workflowTasks[id])
    requires var t := db.workflowTasks[id]; (t.started <==> t.lease.Some?) && (t.started <==> t.leaseExpiry.Some?)
    ensures var t, db' := db.workflowTasks[id], ReapWorkflowTasks(db, now);
      && id in db'.workflowTasks && db'.workflowTasks[id].key == t.key && db'.nextUuid == db.nextUuid
      && WorkflowTaskVisible(db'.workflowTasks[id], t.key.workflow.ns, t.taskQueue, worker, now)
  {
  }

  /** Likewise for an activity task. */
  lemma NoStrandedActivityTask(steps: seq<Step>, id: nat, now: int)
    requires var db := Reach(Init(), steps).db; id in db.activityTasks && now >= db.activityTasks[id].visibleAt
    requires var t := Reach(Init(), steps).db.activityTasks[id]; t.leaseExpiry.Some? ==> now > t.leaseExpiry.value
    ensures var w := Reach(Init(), steps);
      var t := w.db.activityTasks[id];
      var w' := Apply(Apply(w, ReapActivities(now)), DequeueActivity(id, t.key.workflow.ns, t.taskQueue, now));
      && id in w'.db.activityTasks && w'.db.activityTasks[id].started && w'.db.activityTasks[id].lease == Some(w.db.nextUuid)
      && w'.db.activityTasks[id].attempt == t.attempt && w.db.nextUuid in w'.activityTickets
  {
    hide Reach, Apply;
    var w := Reach(Init(), steps);
    ReachableLeases(steps);
    assert ActivityLease(w, id);
    ReapThenDequeueActivity(w, id, now);
  }

  lemma ReapThenDequeueActivity(w: World, id: nat, now: int)
    requires id in w.db.activityTasks && now >= w.db.activityTasks[id].visibleAt
    requires var t := w.db.activityTasks[id];
      (t.started <==> t.leaseExpiry.Some?) && (t.leaseExpiry.Some? ==> now > t.leaseExpiry.value)
    ensures var t := w.db.activityTasks[id];
      var w' := Apply(Apply(w, ReapActivities(now)), DequeueActivity(id, t.key.workflow.ns, t.taskQueue, now));
      && id in w'.db.activityTasks && w'.db.activityTasks[id].started && w'.db.activityTasks[id].lease == Some(w.db.nextUuid)
      && w'.db.activityTasks[id].attempt == t.attempt && w.db.nextUuid in w'.activityTickets
  {
    assert !ReapActivityTasks(w.db, now).activityTasks[id].started;
  }

  /** The reaper leaves a workflow task with its worker for the ten seconds of the
      lease and takes it back after that. */
  lemma LeaseLastsTenSeconds(w: World, id: nat, ns: int, queue: string, worker: string, now: int, at: int)
    requires Apply(w, Dequeue(id, ns, queue, worker, now)) != w
    ensures var w' := Apply(w, Dequeue(id, ns, queue, worker, now));
      var t := Apply(w', Reap(at)).db.workflowTasks[id];
      (at <= now + 10 * SECOND ==> t == w'.db.workflowTasks[id] && t.lease == Some(w.db.nextUuid)) &&
      (at > now + 10 * SECOND ==> t.lease == None && !t.started)
  {
  }

  // ------------------------------------------------------------------- stickiness

  /** A task enqueued while a sticky registration is live is for that worker alone
      until the registration runs out, and for everyone afterwards. */
  lemma StickyRouting(db: Db, key: RunKey, cause: Attributes, now: int, worker: string, at: int)
    requires key in db.runs && at >= now
    ensures var run, t := db.runs[key], Wake(db, key, cause, now).workflowTasks[db.nextTaskId];
      WorkflowTaskVisible(t, key.workflow.ns, run.taskQueue, worker, at) <==>
        || run.stickyWorker.None? || run.stickyExpires.None? || run.stickyExpires.value < now
        || (worker != "" && run.stickyWorker == Some(worker))
        || run.stickyExpires.value < at
  {
    hide Extended;
  }
}
