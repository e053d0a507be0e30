/** Two workflow tasks of one run may be out at once, and the store accepts both
    responses: numbering activities needs the discipline of ReplaySafety. */
module Overlap {
  import opened Events
  import opened Store
  import opened World
  import opened Soundness
  import opened Effects
  import opened Leases
  import opened Conservation
  import opened ReplayPaths
  import opened ReplaySafety
  import opened Scenarios

  /** A signal makes a second task while the first is with a worker; both workers
      answer with the same schedule command. */
  function Opening(wk: WorkflowKey, p: StartParams): seq<Step>
  {
    FirstDelivery(wk, p) + [Signal(wk, None, "go", Payload(""), 0)] + [Dequeue(1, wk.ns, p.taskQueue, "", 0)]
      + [RecordStarted(2, 0)] + [Deliver(2)]
  }

  function BothAnswer(wk: WorkflowKey, p: StartParams, a: ActivityCommand): seq<Step>
  {
    Opening(wk, p) + [Complete(1, [ScheduleActivityTask(a)], None, 0)] + [Complete(2, [ScheduleActivityTask(a)], None, 0)]
  }

  /** This lease is with a worker and its row is still there. */
  ghost predicate Out(w: World, key: RunKey, id: nat, lease: Uuid)
  {
    && lease in w.tickets && w.tickets[lease].token == TaskToken(key, id, lease) && w.tickets[lease].progress.Delivered?
    && id in w.db.workflowTasks && w.db.workflowTasks[id].lease == Some(lease)
  }

  lemma AfterSignal(wk: WorkflowKey, p: StartParams)
    ensures var w, w' := FirstWorld(wk, p), Apply(FirstWorld(wk, p), Signal(wk, None, "go", Payload(""), 0));
      && w' == w.(db := w'.db) && w'.db.runs.Keys == {RunKey(wk, 0)} && w'.db.nextUuid == 2
      && w'.db.workflowTasks == w.db.workflowTasks[1 :=
           WorkflowTask(RunKey(wk, 0), p.taskQueue, 5, 0, None, None, false, None, None)]
  {
    hide Stamp;
  }

  lemma SecondDelivery(w: World, key: RunKey, queue: string)
    requires Out(w, key, 0, 1) && w.tickets.Keys == {1} && key in w.db.runs && w.db.nextUuid == 2 && 1 in w.db.workflowTasks
    requires w.db.workflowTasks[1] == WorkflowTask(key, queue, 5, 0, None, None, false, None, None)
    ensures var w' := Apply(Apply(Apply(w, Dequeue(1, key.workflow.ns, queue, "", 0)), RecordStarted(2, 0)), Deliver(2));
      Out(w', key, 0, 1) && Out(w', key, 1, 2) && key in w'.db.runs
  {
    hide Append, Fetch;
    var w1 := Apply(w, Dequeue(1, key.workflow.ns, queue, "", 0));
    assert w1.tickets[2] == Ticket(TaskToken(key, 1, 2), Leased) && Out(w1, key, 0, 1) && w1.db.runs == w.db.runs;
    RecordThenDeliver(w1, key, 2);
  }

  lemma RecordThenDeliver(w: World, key: RunKey, lease: Uuid)
    requires lease in w.tickets && w.tickets[lease].progress == Leased && w.tickets[lease].token.key == key && key in w.db.runs
    ensures var w' := Apply(Apply(w, RecordStarted(lease, 0)), Deliver(lease));
      && w'.db.workflowTasks == w.db.workflowTasks && key in w'.db.runs && w'.tickets.Keys == w.tickets.Keys
      && (forall l :: l in w.tickets && l != lease ==> w'.tickets[l] == w.tickets[l])
      && w'.tickets[lease].token == w.tickets[lease].token && w'.tickets[lease].progress.Delivered?
  {
    hide Fetch, Extended;
  }

  /** A worker's single schedule command is accepted whatever else is under way. */
  lemma OneAnswer(w: World, key: RunKey, id: nat, lease: Uuid, a: ActivityCommand)
    requires Sound(w.db) && Out(w, key, id, lease) && key in w.db.runs
    ensures var w' := Apply(w, Complete(lease, [ScheduleActivityTask(a)], None, 0));
      && w'.db.workflowTasks == w.db.workflowTasks - {id} && w'.tickets == w.tickets && key in w'.db.runs
      && Tally(HistoryOf(w'.db.runs, key), ActivityStart, a.activityId) ==
         Tally(HistoryOf(w.db.runs, key), ActivityStart, a.activityId) + 1
  {
    var cmds := [ScheduleActivityTask(a)];
    var taken := w.db.(workflowTasks := w.db.workflowTasks - {id});
    GrownRunsSound(w.db, taken);
    OneCommand(a);
    OneTimerFree(taken.timers, key, ScheduleActivityTask(a), w.db.runs[key].nextEventId + 1);
    RecordCommandsSound(taken, key, cmds, w.db.nextUuid, 0);
    RecordedTally(taken, key, cmds, w.db.nextUuid, 0, ActivityStart, key, a.activityId);
    RecordCommandsSucceeds(taken, key, cmds, w.db.nextUuid);
    AnswerOutcome(w, key, id, lease, cmds);
  }

  lemma OneCommand(a: ActivityCommand)
    ensures var cmds := [ScheduleActivityTask(a)];
      Rejection(cmds) == None && TerminalOf(cmds) == None && CommandTally(cmds, ActivityStart, a.activityId) == 1
  {
    var cmds := [ScheduleActivityTask(a)];
    assert cmds[..0] == [];
    assert Count(cmds, Terminal) == 0;
  }

  lemma AnswerOutcome(w: World, key: RunKey, id: nat, lease: Uuid, cmds: seq<Command>)
    requires Out(w, key, id, lease) && key in w.db.runs && Rejection(cmds) == None && TerminalOf(cmds) == None
    requires RecordCommands(w.db.(workflowTasks := w.db.workflowTasks - {id}), key, cmds, w.db.nextUuid, 0).Some?
    ensures var w' := Apply(w, Complete(lease, cmds, None, 0));
      var db := RecordCommands(w.db.(workflowTasks := w.db.workflowTasks - {id}), key, cmds, w.db.nextUuid, 0).value;
      && w'.tickets == w.tickets && w'.db.workflowTasks == db.workflowTasks
      && (key in db.runs ==> key in w'.db.runs && HistoryOf(w'.db.runs, key) == HistoryOf(db.runs, key))
  {
    hide RecordCommands, Rejection, TerminalOf;
  }

  /** Both responses are accepted, and the run has scheduled the same activity id
      twice. */
  lemma OverlappingTasksDuplicateIds(wk: WorkflowKey, p: StartParams, a: ActivityCommand)
    ensures Tally(HistoryOf(Reach(Init(), BothAnswer(wk, p, a)).db.runs, RunKey(wk, 0)), ActivityStart, a.activityId) == 2
  {
    hide Apply, Reach, Tally, SoundWorld, FirstWorld;
    var key := RunKey(wk, 0);
    OpeningReaches(wk, p, a.activityId);
    var w := Reach(Init(), Opening(wk, p));
    var c1, c2 := Complete(1, [ScheduleActivityTask(a)], None, 0), Complete(2, [ScheduleActivityTask(a)], None, 0);
    ReachableSound(Opening(wk, p));
    ReachableSound(Opening(wk, p) + [c1]);
    ReachOne(Init(), Opening(wk, p), c1);
    ReachOne(Init(), Opening(wk, p) + [c1], c2);
    SoundDb(w);
    SoundDb(Apply(w, c1));
    OneAnswer(w, key, 0, 1, a);
    OneAnswer(Apply(w, c1), key, 1, 2, a);
  }

  lemma SoundDb(w: World)
    requires SoundWorld(w)
    ensures Sound(w.db)
  {
  }

  lemma OpeningReaches(wk: WorkflowKey, p: StartParams, id: int)
    ensures var w, key := Reach(Init(), Opening(wk, p)), RunKey(wk, 0);
      && Out(w, key, 0, 1) && Out(w, key, 1, 2) && key in w.db.runs
      && Tally(HistoryOf(w.db.runs, key), ActivityStart, id) == 0
  {
    hide Apply, Reach, Tally, HistoryOf;
    var s0 := FirstDelivery(wk, p);
    var s1 := s0 + [Signal(wk, None, "go", Payload(""), 0)];
    var s2 := s1 + [Dequeue(1, wk.ns, p.taskQueue, "", 0)];
    var s3 := s2 + [RecordStarted(2, 0)];
    FirstDeliveryReaches(wk, p);
    AfterSignal(wk, p);
    ReachOne(Init(), s0, s1[|s0|]);
    ReachOne(Init(), s1, s2[|s1|]);
    ReachOne(Init(), s2, s3[|s2|]);
    ReachOne(Init(), s3, Deliver(2));
    SecondDelivery(Reach(Init(), s1), RunKey(wk, 0), p.taskQueue);
    NoAnswersNoResponses(Opening(wk, p), RunKey(wk, 0));
    NoResponsesNoTally(HistoryOf(Reach(Init(), Opening(wk, p)).db.runs, RunKey(wk, 0)), id);
  }

  /** Only responses schedule activities. */
  lemma {:induction false} NoAnswersNoResponses(steps: seq<Step>, key: RunKey)
    requires forall i :: 0 <= i < |steps| ==> !steps[i].Complete?
    ensures HasAllResponses([], HistoryOf(Reach(Init(), steps).db.runs, key))
  {
    hide Apply, Changes, Grounded, SoundWorld, LeaseSafe;
    if steps != [] {
      var pre, s := steps[..|steps| - 1], steps[|steps| - 1];
      var w := Reach(Init(), pre);
      NoAnswersNoResponses(pre, key);
      ReachableLeases(pre);
      SoundDb(w);
      StepEffect(w, s);
      StepGrounded(w, s);
      EffectNoResponses(w.db, Apply(w, s).db, EffectOf(w, s), key);
    }
  }

  lemma {:induction false} NoResponsesNoTally(h: seq<HistoryEvent>, id: int)
    requires HasAllResponses([], h)
    ensures Tally(h, ActivityStart, id) == 0
  {
    if h != [] { NoResponsesNoTally(h[..|h| - 1], id); }
  }
}
