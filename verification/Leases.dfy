/** Mechanism A: a lease token is issued once, held by one row, and consumed by at
    most one successful response. */
module Leases {
  import opened Events
  import opened Store
  import opened Backoff
  import opened World
  import opened Effects
  import opened Soundness

  ghost predicate Unleased(t: WorkflowTask)
  {
    !t.started && t.lease.None? && t.leaseExpiry.None?
  }

  ghost predicate UnleasedActivity(t: ActivityTask)
  {
    !t.started && t.lease.None? && t.leaseExpiry.None?
  }

  /** Rows keep the lease they had or have none. */
  ghost predicate NoNewLeases(db: Db, db': Db)
  {
    && (forall id :: id in db'.workflowTasks ==>
          (id in db.workflowTasks && db'.workflowTasks[id] == db.workflowTasks[id]) || Unleased(db'.workflowTasks[id]))
    && (forall id :: id in db'.activityTasks ==>
          (id in db.activityTasks && db'.activityTasks[id] == db.activityTasks[id]) || UnleasedActivity(db'.activityTasks[id]))
  }

  lemma NoNewLeasesTrans(a: Db, b: Db, c: Db)
    requires NoNewLeases(a, b) && NoNewLeases(b, c)
    ensures NoNewLeases(a, c)
  {
  }

  lemma {:induction false} EnqueueActivitiesUnleased(db: Db, key: RunKey, queue: string, cmds: seq<Command>, first: int, now: int)
    ensures NoNewLeases(db, EnqueueActivities(db, key, queue, cmds, first, now))
  {
    if cmds != [] {
      EnqueueActivitiesUnleased(db, key, queue, cmds[..|cmds| - 1], first, now);
    }
  }

  lemma CloseWithUnleased(db: Db, key: RunKey, run: Run, c: Command, newRunId: Uuid, now: int)
    requires Terminal(c)
    ensures NoNewLeases(db, CloseWith(db, key, run, c, newRunId, now))
  {
  }

  lemma ConcludeUnleased(db: Db, key: RunKey, run: Run, cmds: seq<Command>, newRunId: Uuid, sticky: Option<Sticky>, now: int)
    ensures NoNewLeases(db, Conclude(db, key, run, cmds, newRunId, sticky, now))
  {
    hide CloseWith;
    if TerminalOf(cmds).Some? { CloseWithUnleased(db, key, run, TerminalOf(cmds).value, newRunId, now); }
  }

  lemma RespondedUnleased(db: Db, token: TaskToken, cmds: seq<Command>, sticky: Option<Sticky>, now: int)
    requires CompleteWorkflowTask(db, token, cmds, sticky, now).Commit?
    ensures NoNewLeases(db, CompleteWorkflowTask(db, token, cmds, sticky, now).db)
  {
    hide EnqueueActivities, InsertTimers, Conclude, EventsOf;
    var taken := db.(workflowTasks := db.workflowTasks - {token.taskId});
    var run := db.runs[token.key];
    var db1 := Append(taken, token.key, [WorkflowTaskCompleted] + EventsOf(cmds, run, db.nextUuid), now);
    EnqueueActivitiesUnleased(db1, token.key, run.taskQueue, cmds, run.nextEventId + 1, now);
    var db' := RecordCommands(taken, token.key, cmds, db.nextUuid, now).value;
    ConcludeUnleased(db', token.key, run, cmds, db.nextUuid, sticky, now);
    assert NoNewLeases(db, db');
    NoNewLeasesTrans(db, db', CompleteWorkflowTask(db, token, cmds, sticky, now).db);
  }

  lemma EffectUnleased(db: Db, db': Db, e: Effect)
    requires Changes(db, db', e) && !e.Quiet?
    ensures NoNewLeases(db, db')
  {
    match e {
      case Responded(token, cmds, sticky, now) => RespondedUnleased(db, token, cmds, sticky, now);
      case _ => hide CompleteWorkflowTask;
    }
  }

  lemma DeleteUnleased(db: Db, token: TaskToken)
    requires DeleteWorkflowTask(db, token).Commit?
    ensures NoNewLeases(db, DeleteWorkflowTask(db, token).db)
  {
  }

  lemma ClearUnleased(db: Db, key: RunKey)
    ensures NoNewLeases(db, SetSticky(db, key, None, None))
  {
  }

  lemma ReapUnleased(db: Db, now: int)
    ensures NoNewLeases(db, ReapWorkflowTasks(db, now)) && NoNewLeases(db, ReapActivityTasks(db, now))
  {
  }

  lemma RetryUnleased(db: Db, token: TaskToken, delay: int, now: int)
    requires RetryActivityTask(db, token, delay, now).Commit?
    ensures NoNewLeases(db, RetryActivityTask(db, token, delay, now).db)
  {
  }

  lemma FailTerminallyUnleased(db: Db, token: TaskToken, row: ActivityTask, failure: Failure, now: int)
    requires FailActivityTerminally(db, token, row, failure, now).Commit?
    ensures NoNewLeases(db, FailActivityTerminally(db, token, row, failure, now).db)
  {
    hide Extended, StickyFields;
  }

  lemma SameUnleased(db: Db)
    ensures NoNewLeases(db, db)
  {
  }

  lemma FailActivityUnleased(w: World, l: Uuid, failure: Failure, platform: int, now: int)
    ensures NoNewLeases(w.db, DoFailActivity(w, l, failure, platform, now).db)
  {
    hide NoNewLeases, RetryActivityTask, FailActivityTerminally, Delay, Retryable;
    SameUnleased(w.db);
    if HasActivityToken(w, l) && l in w.failReads {
      var token, row := w.activityTickets[l].token, w.failReads[l];
      if RetryActivityTask(w.db, token, Delay(row, platform), now).Commit? {
        RetryUnleased(w.db, token, Delay(row, platform), now);
      }
      if FailActivityTerminally(w.db, token, row, failure, now).Commit? {
        FailTerminallyUnleased(w.db, token, row, failure, now);
      }
    }
  }

  lemma FailStatementsUnleased(w: World, l: Uuid)
    ensures NoNewLeases(w.db, DoFailDelete(w, l).db) && NoNewLeases(w.db, DoFailClear(w, l).db)
  {
    hide NoNewLeases, DeleteWorkflowTask, SetSticky;
    SameUnleased(w.db);
    if HasToken(w, l) && DeleteWorkflowTask(w.db, w.tickets[l].token).Commit? { DeleteUnleased(w.db, w.tickets[l].token); }
    if l in w.failing { ClearUnleased(w.db, w.failing[l].token.key); }
  }

  lemma QuietUnleased(w: World, s: Step)
    requires s.FailDelete? || s.FailClear? || s.Reap? || s.ReapActivities? || s.FailActivity?
    ensures NoNewLeases(w.db, Apply(w, s).db)
  {
    hide NoNewLeases, DoFailDelete, DoFailClear, DoFailActivity, ReapWorkflowTasks, ReapActivityTasks;
    match s {
      case FailDelete(l) => FailStatementsUnleased(w, l);
      case FailClear(l) => FailStatementsUnleased(w, l);
      case Reap(now) => ReapUnleased(w.db, now);
      case ReapActivities(now) => ReapUnleased(w.db, now);
      case FailActivity(l, failure, platform, now) => FailActivityUnleased(w, l, failure, platform, now);
    }
  }

  lemma LeasesComeFromDispatch(w: World, s: Step)
    requires !s.Dequeue? && !s.DequeueActivity?
    ensures NoNewLeases(w.db, Apply(w, s).db)
  {
    hide Apply, Changes, NoNewLeases;
    StepEffect(w, s);
    if s.FailDelete? || s.FailClear? || s.Reap? || s.ReapActivities? || s.FailActivity? {
      QuietUnleased(w, s);
    } else if EffectOf(w, s).Quiet? {
      OtherQuiet(w, s);
    } else {
      EffectUnleased(w.db, Apply(w, s).db, EffectOf(w, s));
    }
  }

  lemma OtherQuiet(w: World, s: Step)
    requires EffectOf(w, s).Quiet? && !s.Dequeue? && !s.DequeueActivity?
    requires !(s.FailDelete? || s.FailClear? || s.Reap? || s.ReapActivities? || s.FailActivity?)
    ensures NoNewLeases(w.db, Apply(w, s).db)
  {
    hide StartWorkflow, CompleteWorkflowTask, Wake, Append, EnqueueWorkflowTask, Fetch;
    assert Apply(w, s).db == w.db;
  }

  // ------------------------------------------------------------- the invariant

  /** A row is STARTED exactly when it carries a lease token, and then the token
      that was issued for it names it and has not been used. */
  ghost predicate WorkflowLease(w: World, id: nat)
    requires id in w.db.workflowTasks
  {
    var t := w.db.workflowTasks[id];
    && (t.started <==> t.lease.Some?) && (t.started <==> t.leaseExpiry.Some?)
    && (t.lease.Some? ==>
          && t.lease.value in w.tickets && w.tickets[t.lease.value].token == TaskToken(t.key, id, t.lease.value)
          && t.lease.value !in w.consumed)
  }

  /** Likewise for an activity row, which moreover is still what dequeue returned. */
  ghost predicate ActivityLease(w: World, id: nat)
    requires id in w.db.activityTasks
  {
    var t := w.db.activityTasks[id];
    && (t.started <==> t.lease.Some?) && (t.started <==> t.leaseExpiry.Some?)
    && (t.lease.Some? ==>
          && t.lease.value in w.activityTickets && w.activityTickets[t.lease.value].row == t
          && w.activityTickets[t.lease.value].token == TaskToken(t.key, id, t.lease.value)
          && t.lease.value !in w.consumed)
  }

  ghost predicate RowLeases(w: World)
  {
    && (forall id :: id in w.db.workflowTasks ==> WorkflowLease(w, id))
    && (forall id :: id in w.db.activityTasks ==> ActivityLease(w, id))
  }

  /** Tokens were issued for their own lease; a read for a failure saw the row that
      was leased. */
  ghost predicate Tickets(w: World)
  {
    && (forall l :: l in w.tickets ==>
          l < w.db.nextUuid && w.tickets[l].token.lease == l && w.tickets[l].token.taskId < w.db.nextTaskId)
    && (forall l :: l in w.activityTickets ==>
          && l < w.db.nextUuid && l !in w.tickets
          && w.activityTickets[l].token.lease == l && w.activityTickets[l].token.taskId < w.db.nextTaskId
          && w.activityTickets[l].row.key == w.activityTickets[l].token.key)
    && (forall l :: l in w.failReads ==> l in w.activityTickets && w.failReads[l] == w.activityTickets[l].row)
  }

  /** No token is consumed twice. */
  ghost predicate ConsumedOnce(w: World)
  {
    && (forall i :: 0 <= i < |w.consumed| ==> w.consumed[i] < w.db.nextUuid)
    && (forall i, j :: 0 <= i < j < |w.consumed| ==> w.consumed[i] != w.consumed[j])
  }

  ghost predicate LeaseSafe(w: World)
  {
    RowLeases(w) && Tickets(w) && ConsumedOnce(w)
  }

  lemma CountersGrow(w: World, s: Step)
    requires SoundWorld(w)
    ensures w.db.nextUuid <= Apply(w, s).db.nextUuid && w.db.nextTaskId <= Apply(w, s).db.nextTaskId
  {
    hide Apply, Sound, Changes;
    StepSound(w, s);
    StepEffect(w, s);
    EffectTaskIds(w.db, Apply(w, s).db, EffectOf(w, s));
  }

  lemma EffectTaskIds(db: Db, db': Db, e: Effect)
    requires Sound(db) && Changes(db, db', e)
    ensures db.nextTaskId <= db'.nextTaskId
    ensures forall id :: id in db'.workflowTasks && id !in db.workflowTasks ==> db.nextTaskId <= id
    ensures forall id :: id in db'.activityTasks && id !in db.activityTasks ==> db.nextTaskId <= id
  {
    match e {
      case Responded(token, cmds, sticky, now) => RespondedTaskIds(db, token, cmds, sticky, now);
      case _ => hide CompleteWorkflowTask;
    }
  }

  lemma {:induction false} EnqueueActivitiesTaskIds(db: Db, key: RunKey, queue: string, cmds: seq<Command>, first: int, now: int)
    ensures var db' := EnqueueActivities(db, key, queue, cmds, first, now);
      && db.nextTaskId <= db'.nextTaskId && db'.workflowTasks == db.workflowTasks
      && forall id :: id in db'.activityTasks && id !in db.activityTasks ==> db.nextTaskId <= id
  {
    if cmds != [] {
      EnqueueActivitiesTaskIds(db, key, queue, cmds[..|cmds| - 1], first, now);
    }
  }

  lemma RespondedTaskIds(db: Db, token: TaskToken, cmds: seq<Command>, sticky: Option<Sticky>, now: int)
    requires CompleteWorkflowTask(db, token, cmds, sticky, now).Commit?
    ensures var db' := CompleteWorkflowTask(db, token, cmds, sticky, now).db;
      && db.nextTaskId <= db'.nextTaskId
      && (forall id :: id in db'.workflowTasks && id !in db.workflowTasks - {token.taskId} ==> db.nextTaskId <= id)
      && (forall id :: id in db'.activityTasks && id !in db.activityTasks ==> db.nextTaskId <= id)
  {
    hide EnqueueActivities, InsertTimers, EventsOf;
    var taken := db.(workflowTasks := db.workflowTasks - {token.taskId});
    var run := db.runs[token.key];
    var db1 := Append(taken, token.key, [WorkflowTaskCompleted] + EventsOf(cmds, run, db.nextUuid), now);
    EnqueueActivitiesTaskIds(db1, token.key, run.taskQueue, cmds, run.nextEventId + 1, now);
  }

  // ------------------------------------------------------------ step by step

  /** A fresh lease on one workflow row keeps the invariant. */
  lemma NewWorkflowLease(w: World, id: nat, now: int)
    requires LeaseSafe(w) && id in w.db.workflowTasks && id < w.db.nextTaskId
    ensures var t, l := w.db.workflowTasks[id], w.db.nextUuid;
      LeaseSafe(w.(db := w.db.(workflowTasks := w.db.workflowTasks[id :=
                                 t.(started := true, lease := Some(l), leaseExpiry := Some(now + WORKFLOW_TASK_LEASE))],
                               nextUuid := l + 1),
                   tickets := w.tickets[l := Ticket(TaskToken(t.key, id, l), Leased)]))
  {
    hide ActivityLease;
    var t, l := w.db.workflowTasks[id], w.db.nextUuid;
    var t' := t.(started := true, lease := Some(l), leaseExpiry := Some(now + WORKFLOW_TASK_LEASE));
    var w' := w.(db := w.db.(workflowTasks := w.db.workflowTasks[id := t'], nextUuid := l + 1),
                 tickets := w.tickets[l := Ticket(TaskToken(t.key, id, l), Leased)]);
    forall i | i in w'.db.workflowTasks ensures WorkflowLease(w', i) { assert WorkflowLease(w, i); }
    forall i | i in w'.db.activityTasks ensures ActivityLease(w', i) { ActivityLeaseFrame(w, w', i); }
  }

  lemma DequeueLeases(w: World, id: nat, ns: int, queue: string, worker: string, now: int)
    requires SoundWorld(w) && LeaseSafe(w)
    ensures LeaseSafe(DoDequeue(w, id, ns, queue, worker, now))
  {
    hide Sound, WorkflowTaskVisible, LeaseSafe;
    SoundTaskIds(w.db);
    if DoDequeue(w, id, ns, queue, worker, now) != w { NewWorkflowLease(w, id, now); }
  }

  lemma SoundTaskIds(db: Db)
    requires Sound(db)
    ensures forall id :: id in db.workflowTasks ==> id < db.nextTaskId
    ensures forall id :: id in db.activityTasks ==> id < db.nextTaskId
  {
  }

  lemma ActivityLeaseFrame(w: World, w': World, id: nat)
    requires id in w.db.activityTasks && ActivityLease(w, id)
    requires w'.db.activityTasks == w.db.activityTasks && w'.activityTickets == w.activityTickets && w'.consumed == w.consumed
    ensures ActivityLease(w', id)
  {
  }

  lemma WorkflowLeaseFrame(w: World, w': World, id: nat)
    requires id in w.db.workflowTasks && WorkflowLease(w, id)
    requires w'.db.workflowTasks == w.db.workflowTasks && w'.tickets == w.tickets && w'.consumed == w.consumed
    ensures WorkflowLease(w', id)
  {
  }

  /** The world once an activity row is leased anew. */
  function WithActivityLease(w: World, id: nat, now: int): World
    requires id in w.db.activityTasks
  {
    var t, l := w.db.activityTasks[id], w.db.nextUuid;
    var t' := t.(started := true, lease := Some(l), leaseExpiry := Some(now + t.startToClose));
    w.(db := w.db.(activityTasks := w.db.activityTasks[id := t'], nextUuid := l + 1),
       activityTickets := w.activityTickets[l := ActivityTicket(TaskToken(t.key, id, l), t', false)])
  }

  lemma NewActivityTicket(w: World, id: nat, now: int)
    requires Tickets(w) && ConsumedOnce(w) && id in w.db.activityTasks && id < w.db.nextTaskId
    ensures Tickets(WithActivityLease(w, id, now)) && ConsumedOnce(WithActivityLease(w, id, now))
  {
  }

  lemma NewActivityRow(w: World, id: nat, now: int)
    requires LeaseSafe(w) && id in w.db.activityTasks
    ensures RowLeases(WithActivityLease(w, id, now))
  {
    hide WorkflowLease;
    var w' := WithActivityLease(w, id, now);
    forall i | i in w'.db.workflowTasks ensures WorkflowLease(w', i) { WorkflowLeaseFrame(w, w', i); }
    forall i | i in w'.db.activityTasks ensures ActivityLease(w', i) { assert ActivityLease(w, i); }
  }

  /** A fresh lease on one activity row keeps the invariant. */
  lemma NewActivityLease(w: World, id: nat, now: int)
    requires LeaseSafe(w) && id in w.db.activityTasks && id < w.db.nextTaskId
    ensures LeaseSafe(WithActivityLease(w, id, now))
  {
    hide RowLeases, Tickets, ConsumedOnce, WithActivityLease;
    NewActivityTicket(w, id, now);
    NewActivityRow(w, id, now);
  }

  lemma DequeueActivityLeases(w: World, id: nat, ns: int, queue: string, now: int)
    requires SoundWorld(w) && LeaseSafe(w)
    ensures LeaseSafe(DoDequeueActivity(w, id, ns, queue, now))
  {
    hide Sound, ActivityTaskVisible, LeaseSafe;
    SoundTaskIds(w.db);
    if DoDequeueActivity(w, id, ns, queue, now) != w { NewActivityLease(w, id, now); }
  }

  /** The lease a successful response used is gone from the tables afterwards. */
  ghost predicate Released(db: Db, l: Uuid)
  {
    && (forall id :: id in db.workflowTasks ==> db.workflowTasks[id].lease != Some(l))
    && (forall id :: id in db.activityTasks ==> db.activityTasks[id].lease != Some(l))
  }

  lemma ResponseReleases(w: World, s: Step)
    requires SoundWorld(w) && LeaseSafe(w)
    requires s.Complete? || s.FailDelete? || s.CompleteActivity? || s.FailActivity?
    requires Apply(w, s).consumed != w.consumed
    ensures Apply(w, s).consumed == w.consumed + [s.lease] && s.lease !in w.consumed
    ensures s.lease < w.db.nextUuid && Released(Apply(w, s).db, s.lease)
  {
    hide Apply, Sound;
    LeasesComeFromDispatch(w, s);
    TakenRowIsFree(w, s);
    FreedIsReleased(w, Apply(w, s).db, s.lease);
  }

  /** If the row a token names is gone or unleased, no row holds the token. */
  lemma FreedIsReleased(w: World, db': Db, l: Uuid)
    requires LeaseSafe(w) && NoNewLeases(w.db, db') && (l in w.tickets || l in w.activityTickets)
    requires l in w.tickets && w.tickets[l].token.taskId in db'.workflowTasks ==>
      Unleased(db'.workflowTasks[w.tickets[l].token.taskId])
    requires l in w.activityTickets && w.activityTickets[l].token.taskId in db'.activityTasks ==>
      UnleasedActivity(db'.activityTasks[w.activityTickets[l].token.taskId])
    ensures Released(db', l)
  {
    forall id | id in db'.workflowTasks ensures db'.workflowTasks[id].lease != Some(l) {
      if id in w.db.workflowTasks { assert WorkflowLease(w, id); }
    }
    forall id | id in db'.activityTasks ensures db'.activityTasks[id].lease != Some(l) {
      if id in w.db.activityTasks { assert ActivityLease(w, id); }
    }
  }

  lemma TakenRowIsFree(w: World, s: Step)
    requires SoundWorld(w) && LeaseSafe(w)
    requires s.Complete? || s.FailDelete? || s.CompleteActivity? || s.FailActivity?
    requires Apply(w, s).consumed != w.consumed
    ensures Apply(w, s).consumed == w.consumed + [s.lease] && s.lease !in w.consumed && s.lease < w.db.nextUuid
    ensures s.lease in w.tickets || s.lease in w.activityTickets
    ensures s.lease in w.tickets && w.tickets[s.lease].token.taskId in Apply(w, s).db.workflowTasks ==>
      Unleased(Apply(w, s).db.workflowTasks[w.tickets[s.lease].token.taskId])
    ensures s.lease in w.activityTickets && w.activityTickets[s.lease].token.taskId in Apply(w, s).db.activityTasks ==>
      UnleasedActivity(Apply(w, s).db.activityTasks[w.activityTickets[s.lease].token.taskId])
  {
    match s {
      case Complete(l, cmds, sticky, now) => CompleteFrees(w, l, cmds, sticky, now);
      case FailDelete(l) => FailDeleteFrees(w, l);
      case CompleteActivity(l, result, now) => CompleteActivityFrees(w, l, result, now);
      case FailActivity(l, failure, platform, now) => FailActivityFrees(w, l, failure, platform, now);
    }
  }

  lemma CompleteFrees(w: World, l: Uuid, cmds: seq<Command>, sticky: Option<Sticky>, now: int)
    requires SoundWorld(w) && LeaseSafe(w) && DoComplete(w, l, cmds, sticky, now).consumed != w.consumed
    ensures var w' := DoComplete(w, l, cmds, sticky, now);
      && w'.consumed == w.consumed + [l] && l !in w.consumed && l in w.tickets
      && w.tickets[l].token.taskId !in w'.db.workflowTasks
  {
    var token := w.tickets[l].token;
    RespondedTaskIds(w.db, token, cmds, sticky, now);
    assert WorkflowLease(w, token.taskId);
  }

  lemma FailDeleteFrees(w: World, l: Uuid)
    requires SoundWorld(w) && LeaseSafe(w) && DoFailDelete(w, l).consumed != w.consumed
    ensures var w' := DoFailDelete(w, l);
      && w'.consumed == w.consumed + [l] && l !in w.consumed && l in w.tickets
      && w.tickets[l].token.taskId !in w'.db.workflowTasks
  {
    assert WorkflowLease(w, w.tickets[l].token.taskId);
  }

  lemma CompleteActivityFrees(w: World, l: Uuid, result: Payload, now: int)
    requires SoundWorld(w) && LeaseSafe(w) && DoCompleteActivity(w, l, result, now).consumed != w.consumed
    ensures var w' := DoCompleteActivity(w, l, result, now);
      && w'.consumed == w.consumed + [l] && l !in w.consumed && l in w.activityTickets
      && w.activityTickets[l].token.taskId !in w'.db.activityTasks
  {
    assert ActivityLease(w, w.activityTickets[l].token.taskId);
  }

  lemma FailActivityFrees(w: World, l: Uuid, failure: Failure, platform: int, now: int)
    requires SoundWorld(w) && LeaseSafe(w) && DoFailActivity(w, l, failure, platform, now).consumed != w.consumed
    ensures var w' := DoFailActivity(w, l, failure, platform, now);
      && w'.consumed == w.consumed + [l] && l !in w.consumed && l in w.activityTickets
      && (w.activityTickets[l].token.taskId in w'.db.activityTasks ==>
            UnleasedActivity(w'.db.activityTasks[w.activityTickets[l].token.taskId]))
  {
    hide Delay;
    assert ActivityLease(w, w.activityTickets[l].token.taskId);
  }

  /** The same tokens are out, for the same rows. */
  ghost predicate SameTokens(w: World, w': World)
  {
    && w'.tickets.Keys == w.tickets.Keys && w'.activityTickets.Keys == w.activityTickets.Keys
    && (forall l :: l in w.tickets ==> w'.tickets[l].token == w.tickets[l].token)
    && (forall l :: l in w.activityTickets ==>
          w'.activityTickets[l].token == w.activityTickets[l].token && w'.activityTickets[l].row == w.activityTickets[l].row)
  }

  lemma RecordKeepsTokens(w: World, l: Uuid, now: int)
    ensures SameTokens(w, DoRecordStarted(w, l, now))
  {
    hide Append;
  }

  lemma DeliverKeepsTokens(w: World, l: Uuid)
    ensures SameTokens(w, DoDeliver(w, l))
  {
    hide Fetch;
  }

  lemma RecordActivityKeepsTokens(w: World, l: Uuid, now: int)
    ensures SameTokens(w, DoRecordActivityStarted(w, l, now))
  {
    hide Append;
  }

  lemma StepKeepsTokens(w: World, s: Step)
    requires !s.Dequeue? && !s.DequeueActivity?
    ensures SameTokens(w, Apply(w, s))
  {
    if s.RecordStarted? || s.Deliver? || s.RecordActivityStarted? {
      DispatchKeepsTokens(w, s);
    } else {
      OthersKeepTokens(w, s);
    }
    hide Apply, SameTokens;
  }

  lemma DispatchKeepsTokens(w: World, s: Step)
    requires s.RecordStarted? || s.Deliver? || s.RecordActivityStarted?
    ensures SameTokens(w, Apply(w, s))
  {
    hide SameTokens, DoRecordStarted, DoDeliver, DoRecordActivityStarted;
    match s {
      case RecordStarted(l, now) => RecordKeepsTokens(w, l, now);
      case Deliver(l) => DeliverKeepsTokens(w, l);
      case RecordActivityStarted(l, now) => RecordActivityKeepsTokens(w, l, now);
    }
  }

  lemma OthersKeepTokens(w: World, s: Step)
    requires !s.Dequeue? && !s.DequeueActivity? && !s.RecordStarted? && !s.Deliver? && !s.RecordActivityStarted?
    ensures SameTokens(w, Apply(w, s))
  {
    hide Apply;
    BooksFrame(w, s);
  }

  lemma ReadSeesLeasedRow(w: World, s: Step)
    requires LeaseSafe(w) && s.ReadActivity?
    ensures forall l :: l in Apply(w, s).failReads ==>
      l in w.activityTickets && Apply(w, s).failReads[l] == w.activityTickets[l].row
  {
    if HasActivityToken(w, s.lease) && HoldsActivityTask(w.db, w.activityTickets[s.lease].token) {
      assert ActivityLease(w, w.activityTickets[s.lease].token.taskId);
    }
  }

  lemma TicketsKept(w: World, w': World)
    requires Tickets(w) && SameTokens(w, w')
    requires w.db.nextUuid <= w'.db.nextUuid && w.db.nextTaskId <= w'.db.nextTaskId
    requires forall l :: l in w'.failReads ==> l in w.activityTickets && w'.failReads[l] == w.activityTickets[l].row
    ensures Tickets(w')
  {
  }

  lemma RowLeasesKept(w: World, w': World)
    requires RowLeases(w) && NoNewLeases(w.db, w'.db) && SameTokens(w, w')
    requires w'.consumed == w.consumed || (exists l :: w'.consumed == w.consumed + [l] && Released(w'.db, l))
    ensures RowLeases(w')
  {
    forall id | id in w'.db.workflowTasks ensures WorkflowLease(w', id) {
      if id in w.db.workflowTasks { assert WorkflowLease(w, id); }
    }
    forall id | id in w'.db.activityTasks ensures ActivityLease(w', id) {
      if id in w.db.activityTasks { assert ActivityLease(w, id); }
    }
  }

  lemma OtherLeases(w: World, s: Step)
    requires SoundWorld(w) && LeaseSafe(w) && !s.Dequeue? && !s.DequeueActivity?
    ensures LeaseSafe(Apply(w, s))
  {
    hide Apply, Sound, RowLeases, SameTokens, NoNewLeases;
    StepKeepsTokens(w, s);
    LeasesComeFromDispatch(w, s);
    CountersGrow(w, s);
    BooksFrame(w, s);
    if s.ReadActivity? { ReadSeesLeasedRow(w, s); }
    if Apply(w, s).consumed != w.consumed { ResponseReleases(w, s); }
    TicketsKept(w, Apply(w, s));
    RowLeasesKept(w, Apply(w, s));
  }

  lemma StepLeases(w: World, s: Step)
    requires SoundWorld(w) && LeaseSafe(w)
    ensures LeaseSafe(Apply(w, s))
  {
    match s {
      case Dequeue(id, ns, queue, worker, now) => DequeueLeases(w, id, ns, queue, worker, now);
      case DequeueActivity(id, ns, queue, now) => DequeueActivityLeases(w, id, ns, queue, now);
      case _ => OtherLeases(w, s);
    }
  }

  /** In every reachable state a row is STARTED exactly when it carries the token
      issued for it, and no token has been consumed twice. */
  lemma {:induction false} ReachableLeases(steps: seq<Step>)
    ensures SoundWorld(Reach(Init(), steps)) && LeaseSafe(Reach(Init(), steps))
  {
    ReachableSound(steps);
    if steps != [] {
      ReachableLeases(steps[..|steps| - 1]);
      StepLeases(Reach(Init(), steps[..|steps| - 1]), steps[|steps| - 1]);
    }
  }

  /** A lease that is issued but held by no row, because its row was completed,
      reaped, retried or leased anew, is never held again, so no response with its
      token is ever accepted. */
  lemma {:induction false} StaleStaysStale(w: World, steps: seq<Step>, l: Uuid)
    requires SoundWorld(w) && LeaseSafe(w) && l < w.db.nextUuid && Released(w.db, l)
    ensures var w' := Reach(w, steps);
      SoundWorld(w') && LeaseSafe(w') && l < w'.db.nextUuid && Released(w'.db, l)
  {
    if steps != [] {
      var w', s := Reach(w, steps[..|steps| - 1]), steps[|steps| - 1];
      StaleStaysStale(w, steps[..|steps| - 1], l);
      StepSound(w', s);
      StepLeases(w', s);
      CountersGrow(w', s);
      StaleStep(w', s, l);
    }
  }

  lemma StaleStep(w: World, s: Step, l: Uuid)
    requires SoundWorld(w) && LeaseSafe(w) && l < w.db.nextUuid && Released(w.db, l)
    ensures Released(Apply(w, s).db, l)
  {
    if s.Dequeue? || s.DequeueActivity? {
      DispatchIsFresh(w, s, l);
    } else {
      hide Apply;
      LeasesComeFromDispatch(w, s);
    }
  }

  lemma DispatchIsFresh(w: World, s: Step, l: Uuid)
    requires l < w.db.nextUuid && Released(w.db, l) && (s.Dequeue? || s.DequeueActivity?)
    ensures Released(Apply(w, s).db, l)
  {
  }

  /** A response with a released lease changes nothing. */
  lemma StaleIsRejected(w: World, s: Step)
    requires s.Complete? || s.FailDelete? || s.CompleteActivity? || s.FailActivity?
    requires SoundWorld(w) && LeaseSafe(w) && Released(w.db, s.lease)
    ensures Apply(w, s) == w
  {
    hide SoundWorld, LeaseSafe, HoldsWorkflowTask, HoldsActivityTask, RecordCommands, Conclude, Delay, Wake, Retryable, Released;
    StaleHoldsNothing(w, s.lease);
  }

  lemma StaleHoldsNothing(w: World, l: Uuid)
    requires LeaseSafe(w) && Released(w.db, l)
    ensures l in w.tickets ==> !HoldsWorkflowTask(w.db, w.tickets[l].token)
    ensures l in w.activityTickets ==> !HoldsActivityTask(w.db, w.activityTickets[l].token)
  {
  }
}
