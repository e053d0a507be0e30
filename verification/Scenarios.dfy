/** The opening steps of a workflow's life, shared by the counterexamples. */
module Scenarios {
  import opened Events
  import opened Store
  import opened World
  import opened Soundness
  import opened Conservation

  /** Start the first workflow of an empty store and deliver its first task. */
  function FirstDelivery(wk: WorkflowKey, p: StartParams): seq<Step>
  {
    [Start(wk, p, 0)] + [Dequeue(0, wk.ns, p.taskQueue, "", 0)] + [RecordStarted(1, 0)] + [Deliver(1)]
  }

  function FirstEvents(p: StartParams): seq<Attributes>
  {
    [WorkflowExecutionStarted(p.workflowType, p.taskQueue, p.input, p.retryPolicy, None),
     WorkflowTaskScheduled(p.taskQueue), WorkflowTaskStarted]
  }

  /** The run once the first n of those events are recorded. */
  function FirstRun(p: StartParams, n: nat): Run
    requires n <= 3
  {
    Run(p.workflowType, p.taskQueue, RUNNING, n + 1, PositiveOrNone(p.executionTimeout), PositiveOrNone(p.runTimeout),
        PositiveOrNone(p.taskTimeout), None, None, 0, None, Stamp(1, FirstEvents(p)[..n], 0))
  }

  function FirstTask(wk: WorkflowKey, p: StartParams): WorkflowTask
  {
    WorkflowTask(RunKey(wk, 0), p.taskQueue, 2, 0, None, None, false, None, None)
  }

  function FirstDb(wk: WorkflowKey, p: StartParams, n: nat): Db
    requires n <= 3
  {
    Db(map[RunKey(wk, 0) := FirstRun(p, n)], map[wk := Current(0, Client(p.requestId))],
       map[0 := FirstTask(wk, p)], map[], map[], 1, 1)
  }

  /** The store with the task leased by token 1. */
  function LeasedDb(wk: WorkflowKey, p: StartParams, n: nat): Db
    requires n <= 3
  {
    FirstDb(wk, p, n).(
      workflowTasks := map[0 := FirstTask(wk, p).(started := true, lease := Some(1), leaseExpiry := Some(WORKFLOW_TASK_LEASE))],
      nextUuid := 2)
  }

  function LeasedWorld(wk: WorkflowKey, p: StartParams, n: nat, progress: Progress): World
    requires n <= 3
  {
    Init().(db := LeasedDb(wk, p, n), tickets := map[1 := Ticket(TaskToken(RunKey(wk, 0), 0, 1), progress)])
  }

  function FirstWorld(wk: WorkflowKey, p: StartParams): World
  {
    LeasedWorld(wk, p, 3, Delivered(FirstRun(p, 3).history))
  }

  lemma StartReaches(wk: WorkflowKey, p: StartParams)
    ensures Apply(Init(), Start(wk, p, 0)) == Init().(db := FirstDb(wk, p, 2))
  {
    var run := FirstRun(p, 0);
    assert run.history == [];
    assert FirstEvents(p)[..2] == [FirstEvents(p)[0], WorkflowTaskScheduled(p.taskQueue)];
    assert Extended(run, FirstEvents(p)[..2], 0) == FirstRun(p, 2);
  }

  lemma DequeueReaches(wk: WorkflowKey, p: StartParams)
    ensures Apply(Init().(db := FirstDb(wk, p, 2)), Dequeue(0, wk.ns, p.taskQueue, "", 0)) == LeasedWorld(wk, p, 2, Leased)
  {
    hide FirstRun;
  }

  lemma RecordReaches(wk: WorkflowKey, p: StartParams)
    ensures Apply(LeasedWorld(wk, p, 2, Leased), RecordStarted(1, 0)) == LeasedWorld(wk, p, 3, Recorded)
  {
    assert Extended(FirstRun(p, 2), [WorkflowTaskStarted], 0) == FirstRun(p, 3);
    hide FirstRun, Extended;
  }

  lemma DeliverReaches(wk: WorkflowKey, p: StartParams)
    ensures Apply(LeasedWorld(wk, p, 3, Recorded), Deliver(1)) == FirstWorld(wk, p)
  {
  }

  lemma FirstDeliveryReaches(wk: WorkflowKey, p: StartParams)
    ensures Reach(Init(), FirstDelivery(wk, p)) == FirstWorld(wk, p)
  {
    hide Apply, LeasedWorld, FirstDb;
    var dequeue, record := Dequeue(0, wk.ns, p.taskQueue, "", 0), RecordStarted(1, 0);
    var s1 := [Start(wk, p, 0)];
    var s2 := s1 + [dequeue];
    assert s1[..0] == [];
    assert Reach(Init(), s1[..0]) == Init();
    StartReaches(wk, p);
    DequeueReaches(wk, p);
    RecordReaches(wk, p);
    DeliverReaches(wk, p);
    ReachOne(Init(), s1, dequeue);
    ReachOne(Init(), s2, record);
    ReachOne(Init(), s2 + [record], Deliver(1));
  }

  // ------------------------------------------------------ single-command responses

  lemma OneTimerFree(timers: map<TimerKey, Timer>, key: RunKey, c: Command, first: int)
    requires !c.StartTimer?
    ensures InsertTimers(timers, key, [c], first, 0) == Some(timers)
  {
    assert [c][..0] == [];
  }

  lemma RecordCommandsSucceeds(db: Db, key: RunKey, cmds: seq<Command>, newRunId: Uuid)
    requires Sound(db) && key in db.runs && Unsupported !in cmds
    requires InsertTimers(db.timers, key, cmds, db.runs[key].nextEventId + 1, 0).Some?
    ensures RecordCommands(db, key, cmds, newRunId, 0).Some?
  {
    hide Sound, InsertTimers, EnqueueActivities, EventsOf, Extended;
    AppendSound(db, key, [WorkflowTaskCompleted] + EventsOf(cmds, db.runs[key], newRunId), 0);
    CommandsRecorded(db, key, cmds, newRunId, 0);
    EnqueueActivitiesSound(RecordedEvents(db, key, cmds, newRunId, 0), key, db.runs[key].taskQueue, cmds,
                           db.runs[key].nextEventId + 1, 0);
  }
}
