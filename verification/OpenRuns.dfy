/** At most one open run per workflow, and starts that can be repeated. */
module OpenRuns {
  import opened Events
  import opened Store
  import opened World
  import opened Effects
  import opened Soundness
  import opened Leases
  import opened Continuations
  import opened Scenarios

  ghost predicate Running(runs: map<RunKey, Run>, k: RunKey)
  {
    k in runs && runs[k].status == RUNNING
  }

  /** Any RUNNING run is the one current_executions names. */
  ghost predicate OneOpen(db: Db)
  {
    forall k :: Running(db.runs, k) ==> k.workflow in db.currents && db.currents[k.workflow].runId == k.runId
  }

  /** Every run's workflow has a current run, and that run exists. */
  ghost predicate Named(db: Db)
  {
    && (forall k :: k in db.runs ==> k.workflow in db.currents)
    && (forall wk :: wk in db.currents ==> RunKey(wk, db.currents[wk].runId) in db.runs)
  }

  /** The closing run is its workflow's current one, or that one is not open. */
  ghost predicate MayContinue(db: Db, key: RunKey)
  {
    key.workflow in db.currents ==>
      (db.currents[key.workflow].runId == key.runId || !Running(db.runs, RunKey(key.workflow, db.currents[key.workflow].runId)))
  }

  // ---------------------------------------------------------------- each effect

  /** No run opens, no run disappears and nothing is renamed. */
  lemma QuietOpen(db: Db, db': Db)
    requires db'.currents == db.currents && db'.runs.Keys == db.runs.Keys
    requires forall k :: Running(db'.runs, k) ==> Running(db.runs, k)
    ensures OneOpen(db) ==> OneOpen(db')
    ensures Named(db) ==> Named(db')
  {
  }

  lemma StartOpen(db: Db, wk: WorkflowKey, p: StartParams, now: int)
    requires Named(db) && StartWorkflow(db, wk, p, now).Commit?
    ensures Named(StartWorkflow(db, wk, p, now).db)
    ensures OneOpen(db) ==> OneOpen(StartWorkflow(db, wk, p, now).db)
  {
    hide Extended;
  }

  /** What an accepted response does to current_executions and the runs' statuses. */
  lemma RespondedOpen(db: Db, token: TaskToken, cmds: seq<Command>, sticky: Option<Sticky>, now: int)
    requires Sound(db) && CompleteWorkflowTask(db, token, cmds, sticky, now).Commit?
    ensures token.key in db.runs
    ensures var db' := CompleteWorkflowTask(db, token, cmds, sticky, now).db;
      if Continuing(cmds) then Succeeded(db, db', token.key)
      else db'.currents == db.currents && db'.runs.Keys == db.runs.Keys && forall k :: Running(db'.runs, k) ==> Running(db.runs, k)
  {
    hide Sound, CompleteWorkflowTask, Conclude, EventsOf, Extended;
    var mid := AcceptedResponse(db, token, cmds, sticky, now);
    FreshRun(mid, token.key.workflow);
    ExtendedStatus(db.runs[token.key], [WorkflowTaskCompleted] + EventsOf(cmds, db.runs[token.key], db.nextUuid), now);
    ConcludeOpen(mid, token.key, db.runs[token.key], cmds, db.nextUuid, sticky, now);
  }

  lemma ExtendedStatus(run: Run, attrs: seq<Attributes>, now: int)
    ensures Extended(run, attrs, now).status == run.status
  {
  }

  /** The run is closed and a new one is open and current. */
  ghost predicate Succeeded(db: Db, db': Db, key: RunKey)
  {
    var next := RunKey(key.workflow, db.nextUuid);
    && next !in db.runs && db'.runs.Keys == db.runs.Keys + {next}
    && db'.currents.Keys == db.currents.Keys + {key.workflow} && db'.currents[key.workflow].runId == db.nextUuid
    && (forall wk :: wk in db.currents && wk != key.workflow ==> db'.currents[wk] == db.currents[wk])
    && (forall k :: Running(db'.runs, k) <==> k == next || (k != key && Running(db.runs, k)))
  }

  lemma ConcludeOpen(db: Db, key: RunKey, run: Run, cmds: seq<Command>, newRunId: Uuid, sticky: Option<Sticky>, now: int)
    requires key in db.runs && RunKey(key.workflow, newRunId) !in db.runs && newRunId == db.nextUuid
    ensures var db' := Conclude(db, key, run, cmds, newRunId, sticky, now);
      if Continuing(cmds) then Succeeded(db, db', key)
      else db'.currents == db.currents && db'.runs.Keys == db.runs.Keys && forall k :: Running(db'.runs, k) ==> Running(db.runs, k)
  {
    hide CloseWith, Succeeded;
    if TerminalOf(cmds).Some? { CloseWithOpen(db, key, run, TerminalOf(cmds).value, newRunId, now); }
  }

  lemma CloseWithOpen(db: Db, key: RunKey, run: Run, c: Command, newRunId: Uuid, now: int)
    requires key in db.runs && RunKey(key.workflow, newRunId) !in db.runs && newRunId == db.nextUuid && Terminal(c)
    ensures var db' := CloseWith(db, key, run, c, newRunId, now);
      if c.ContinueAsNewWorkflowExecution? then Succeeded(db, db', key)
      else db'.currents == db.currents && db'.runs.Keys == db.runs.Keys && forall k :: Running(db'.runs, k) ==> Running(db.runs, k)
  {
    hide StringOrFallback, DurationOrFallback;
  }

  /** Continuing keeps the workflow at one open run exactly when no other run of it
      is open. */
  lemma SucceededOpen(db: Db, db': Db, key: RunKey)
    requires Named(db) && OneOpen(db) && key in db.runs && Succeeded(db, db', key)
    ensures OneOpen(db') <==> MayContinue(db, key)
  {
    var wk := key.workflow;
    var current := RunKey(wk, db.currents[wk].runId);
    assert Running(db'.runs, current) <==> current != key && Running(db.runs, current);
    assert current in db.runs;
  }

  lemma SucceededNamed(db: Db, db': Db, key: RunKey)
    requires Named(db) && Succeeded(db, db', key)
    ensures Named(db')
  {
  }

  lemma EffectOpen(db: Db, db': Db, e: Effect)
    requires Sound(db) && Named(db) && OneOpen(db) && Changes(db, db', e)
    ensures OneOpen(db') <==> (e.Responded? && Continuing(e.commands) ==> MayContinue(db, e.token.key))
  {
    hide Sound, Named, OneOpen, CompleteWorkflowTask, StartWorkflow, Extended, Continuing, Succeeded, MayContinue;
    match e {
      case Responded(token, cmds, sticky, now) =>
        RespondedOpen(db, token, cmds, sticky, now);
        if Continuing(cmds) { SucceededOpen(db, db', token.key); } else { QuietOpen(db, db'); }
      case Created(wk, p, now) => StartOpen(db, wk, p, now);
      case Noted(key, event, now) => ExtendedStatus(db.runs[key], [event], now); QuietOpen(db, db');
      case Woken(key, cause, now, _, _) =>
        ExtendedStatus(db.runs[key], [cause, WorkflowTaskScheduled(db.runs[key].taskQueue)], now); QuietOpen(db, db');
      case _ => QuietOpen(db, db');
    }
  }

  lemma EffectNamed(db: Db, db': Db, e: Effect)
    requires Sound(db) && Named(db) && Changes(db, db', e)
    ensures Named(db')
  {
    hide Sound, CompleteWorkflowTask, StartWorkflow, Extended, Continuing, Succeeded;
    match e {
      case Responded(token, cmds, sticky, now) =>
        RespondedOpen(db, token, cmds, sticky, now);
        if Continuing(cmds) { SucceededNamed(db, db', token.key); }
      case Created(wk, p, now) => StartOpen(db, wk, p, now);
      case _ =>
    }
  }

  // ------------------------------------------------------------------ whole runs

  lemma {:induction false} ReachableNamed(steps: seq<Step>)
    ensures Named(Reach(Init(), steps).db)
  {
    hide Apply, Changes, SoundWorld, LeaseSafe;
    if steps != [] {
      var pre := steps[..|steps| - 1];
      var w := Reach(Init(), pre);
      ReachableNamed(pre);
      ReachableSound(pre);
      SoundStore(w);
      StepEffect(w, steps[|steps| - 1]);
      EffectNamed(w.db, Reach(Init(), steps).db, EffectOf(w, steps[|steps| - 1]));
    }
  }

  ghost predicate GuardMet(w: World, s: Step)
  {
    var e := EffectOf(w, s);
    e.Responded? && Continuing(e.commands) ==> MayContinue(w.db, e.token.key)
  }

  lemma StepOneOpenIff(w: World, s: Step)
    requires SoundWorld(w) && Named(w.db) && OneOpen(w.db)
    ensures OneOpen(Apply(w, s).db) <==> GuardMet(w, s)
  {
    hide Apply, Changes, Named, OneOpen;
    StepEffect(w, s);
    EffectOpen(w.db, Apply(w, s).db, EffectOf(w, s));
  }

  ghost predicate AlwaysOneOpen(steps: seq<Step>)
  {
    forall n :: 0 <= n <= |steps| ==> OneOpen(Reach(Init(), steps[..n]).db)
  }

  ghost predicate AlwaysGuarded(steps: seq<Step>)
  {
    forall n :: 0 <= n < |steps| ==> GuardMet(Reach(Init(), steps[..n]), steps[n])
  }

  /** A workflow never has a second open run exactly when every continue-as-new that
      was accepted came from the current run or found it closed. */
  lemma {:induction false} OneOpenIffGuarded(steps: seq<Step>)
    ensures AlwaysOneOpen(steps) <==> AlwaysGuarded(steps)
  {
    hide Reach, OneOpen, GuardMet;
    if steps == [] {
      NothingOpen();
      assert steps[..0] == [];
    } else {
      var pre := steps[..|steps| - 1];
      OneOpenIffGuarded(pre);
      assert forall n :: 0 <= n <= |pre| ==> pre[..n] == steps[..n];
      assert steps[..|steps|] == steps && steps == pre + [steps[|pre|]];
      assert AlwaysOneOpen(steps) <==> AlwaysOneOpen(pre) && OneOpen(Reach(Init(), steps).db);
      assert AlwaysGuarded(steps) <==> AlwaysGuarded(pre) && GuardMet(Reach(Init(), pre), steps[|pre|]);
      if AlwaysOneOpen(pre) {
        assert pre[..|pre|] == pre;
        LastStepIff(pre, steps[|pre|]);
      }
    }
  }

  lemma LastStepIff(pre: seq<Step>, s: Step)
    requires OneOpen(Reach(Init(), pre).db)
    ensures OneOpen(Reach(Init(), pre + [s]).db) <==> GuardMet(Reach(Init(), pre), s)
  {
    hide Reach, OneOpen, GuardMet, SoundWorld, Named;
    ReachableSound(pre);
    ReachableNamed(pre);
    ReachOne(Init(), pre, s);
    StepOneOpenIff(Reach(Init(), pre), s);
  }

  lemma NothingOpen()
    ensures OneOpen(Reach(Init(), []).db)
  {
  }

  /** In particular, if continue-as-new is accepted from RUNNING runs only. */
  lemma {:induction false} RunningContinuationsKeepOneOpen(steps: seq<Step>)
    requires forall n :: 0 <= n < |steps| ==>
      var w := Reach(Init(), steps[..n]);
      var e := EffectOf(w, steps[n]);
      e.Responded? && Continuing(e.commands) ==> Running(w.db.runs, e.token.key)
    ensures AlwaysOneOpen(steps)
  {
    hide Reach, EffectOf, Continuing, OneOpen;
    if steps == [] {
      NothingOpen();
      assert steps[..0] == [];
    } else {
      var pre := steps[..|steps| - 1];
      assert forall n :: 0 <= n <= |pre| ==> pre[..n] == steps[..n];
      RunningContinuationsKeepOneOpen(pre);
      assert pre[..|pre|] == pre && steps[..|pre|] == pre && steps == pre + [steps[|pre|]];
      RunningMayContinue(Reach(Init(), pre), steps[|pre|]);
      LastStepIff(pre, steps[|pre|]);
      assert steps[..|steps|] == steps;
    }
  }

  lemma RunningMayContinue(w: World, s: Step)
    requires OneOpen(w.db)
    requires var e := EffectOf(w, s); e.Responded? && Continuing(e.commands) ==> Running(w.db.runs, e.token.key)
    ensures GuardMet(w, s)
  {
    hide EffectOf, Continuing;
  }

  // -------------------------------------------------------------- without the guard

  /** The first run is terminated while its task is with a worker, another is
      started, and then the worker continues the first as new. */
  function Revival(wk: WorkflowKey, p: StartParams, again: StartParams, k: Continuation): seq<Step>
  {
    FirstDelivery(wk, p) + [Terminated(wk, None, "", 0)] + [Start(wk, again, 0)]
      + [Complete(1, [ContinueAsNewWorkflowExecution(k)], None, 0)]
  }

  lemma TerminateFirst(wk: WorkflowKey, p: StartParams)
    ensures var w, w' := FirstWorld(wk, p), Apply(FirstWorld(wk, p), Terminated(wk, None, "", 0));
      && w' == w.(db := w.db.(runs := w'.db.runs)) && w'.db.runs.Keys == {RunKey(wk, 0)}
      && w'.db.runs[RunKey(wk, 0)].status == TERMINATED
  {
    hide FirstRun, Extended;
  }

  lemma StartAgain(w: World, wk: WorkflowKey, p: StartParams, again: StartParams)
    requires w == FirstWorld(wk, p).(db := FirstWorld(wk, p).db.(runs := w.db.runs))
    requires w.db.runs.Keys == {RunKey(wk, 0)} && w.db.runs[RunKey(wk, 0)].status == TERMINATED && again.requestId != p.requestId
    ensures var w' := Apply(w, Start(wk, again, 0));
      && w'.tickets == w.tickets && w'.db.workflowTasks.Keys == {0, 1} && w'.db.workflowTasks[0] == w.db.workflowTasks[0]
      && w'.db.runs.Keys == {RunKey(wk, 0), RunKey(wk, 2)} && w'.db.runs[RunKey(wk, 0)].status == TERMINATED
      && Running(w'.db.runs, RunKey(wk, 2)) && wk in w'.db.currents && w'.db.currents[wk].runId == 2
  {
    hide FirstRun, Stamp;
  }

  /** Nothing asks whether the answering run is still open. */
  lemma ContinuationAccepted(w: World, key: RunKey, k: Continuation)
    requires 1 in w.tickets && w.tickets[1].token == TaskToken(key, 0, 1) && w.tickets[1].progress.Delivered?
    requires 0 in w.db.workflowTasks && w.db.workflowTasks[0].lease == Some(1) && key in w.db.runs && Sound(w.db)
    ensures var cmds := [ContinueAsNewWorkflowExecution(k)];
      Continuing(cmds) && CompleteWorkflowTask(w.db, TaskToken(key, 0, 1), cmds, None, 0).Commit?
  {
    var cmds := [ContinueAsNewWorkflowExecution(k)];
    var taken := w.db.(workflowTasks := w.db.workflowTasks - {0});
    OneContinuation(k);
    GrownRunsSound(w.db, taken);
    hide Rejection, RecordCommands, Conclude, Sound, InsertTimers;
    OneTimerFree(taken.timers, key, cmds[0], w.db.runs[key].nextEventId + 1);
    RecordCommandsSucceeds(taken, key, cmds, w.db.nextUuid);
  }

  lemma OneContinuation(k: Continuation)
    ensures var cmds := [ContinueAsNewWorkflowExecution(k)]; Rejection(cmds) == None && Continuing(cmds)
  {
    var cmds := [ContinueAsNewWorkflowExecution(k)];
    assert cmds[..0] == [] && !Scheduling(cmds[0]);
    assert Count(cmds[..0], Scheduling) == 0;
    assert Count(cmds, Scheduling) == 0;
    assert Count(cmds, Terminal) == 1;
  }

  /** So the workflow ends up with two open runs, one of them not current, and a
      terminated run has become a continued one. */
  lemma ClosedIsNotFinal(wk: WorkflowKey, p: StartParams, again: StartParams, k: Continuation)
    requires again.requestId != p.requestId
    ensures var steps := Revival(wk, p, again, k);
      var before, after := Reach(Init(), steps[..6]), Reach(Init(), steps);
      && OneOpen(before.db) && !OneOpen(after.db)
      && RunKey(wk, 0) in before.db.runs && before.db.runs[RunKey(wk, 0)].status == TERMINATED
      && RunKey(wk, 0) in after.db.runs && after.db.runs[RunKey(wk, 0)].status == CONTINUED_AS_NEW
  {
    hide Reach, Apply, SoundWorld, Named, FirstWorld, CompleteWorkflowTask, Continuing;
    var steps, key := Revival(wk, p, again, k), RunKey(wk, 0);
    var pre := steps[..6];
    var c := Complete(1, [ContinueAsNewWorkflowExecution(k)], None, 0);
    RevivalReaches(wk, p, again, k);
    var w := Reach(Init(), pre);
    assert steps == pre + [c];
    ReachOne(Init(), pre, c);
    ReachableSound(pre);
    ReachableNamed(pre);
    SoundStore(w);
    ContinuationAccepted(w, key, k);
    RespondedOpen(w.db, TaskToken(key, 0, 1), c.commands, None, 0);
    AcceptedContinuation(w, c);
    SucceededOpen(w.db, Apply(w, c).db, key);
  }

  lemma AcceptedContinuation(w: World, s: Step)
    requires s.Complete? && HasToken(w, s.lease) && Continuing(s.commands) && SoundWorld(w)
    requires CompleteWorkflowTask(w.db, w.tickets[s.lease].token, s.commands, s.sticky, s.now).Commit?
    ensures var db', key := Apply(w, s).db, w.tickets[s.lease].token.key;
      && db' == CompleteWorkflowTask(w.db, w.tickets[s.lease].token, s.commands, s.sticky, s.now).db
      && key in db'.runs && db'.runs[key].status == CONTINUED_AS_NEW
  {
    var t := w.tickets[s.lease];
    SoundStore(w);
    hide Apply, CompleteWorkflowTask, Conclude, SoundWorld, EventsOf, Extended;
    var mid := AcceptedResponse(w.db, t.token, s.commands, s.sticky, s.now);
    FreshRun(mid, t.token.key.workflow);
    ContinuedStatus(mid, t.token.key, w.db.runs[t.token.key], s.commands, w.db.nextUuid, s.sticky, s.now);
    CompleteApplies(w, s);
  }

  lemma CompleteApplies(w: World, s: Step)
    requires s.Complete? && HasToken(w, s.lease)
    requires CompleteWorkflowTask(w.db, w.tickets[s.lease].token, s.commands, s.sticky, s.now).Commit?
    ensures Apply(w, s).db == CompleteWorkflowTask(w.db, w.tickets[s.lease].token, s.commands, s.sticky, s.now).db
  {
    hide CompleteWorkflowTask;
  }

  lemma ContinuedStatus(db: Db, key: RunKey, run: Run, cmds: seq<Command>, newRunId: Uuid, sticky: Option<Sticky>, now: int)
    requires key in db.runs && RunKey(key.workflow, newRunId) !in db.runs && Continuing(cmds)
    ensures var db' := Conclude(db, key, run, cmds, newRunId, sticky, now);
      key in db'.runs && db'.runs[key].status == CONTINUED_AS_NEW
  {
    hide StringOrFallback, DurationOrFallback, Extended;
  }

  lemma RevivalReaches(wk: WorkflowKey, p: StartParams, again: StartParams, k: Continuation)
    requires again.requestId != p.requestId
    ensures var w := Reach(Init(), Revival(wk, p, again, k)[..6]);
      && w.tickets == FirstWorld(wk, p).tickets && 1 in w.tickets && 0 in w.db.workflowTasks && w.db.workflowTasks[0].lease == Some(1)
      && w.tickets[1].token == TaskToken(RunKey(wk, 0), 0, 1) && w.tickets[1].progress.Delivered?
      && OneOpen(w.db) && RunKey(wk, 0) in w.db.runs && w.db.runs[RunKey(wk, 0)].status == TERMINATED
      && Running(w.db.runs, RunKey(wk, 2)) && wk in w.db.currents && w.db.currents[wk].runId == 2
  {
    hide Reach, Apply, FirstRun;
    var s0 := FirstDelivery(wk, p);
    var s1 := s0 + [Terminated(wk, None, "", 0)];
    assert Revival(wk, p, again, k)[..6] == s1 + [Start(wk, again, 0)];
    FirstDeliveryReaches(wk, p);
    ReachOne(Init(), s0, Terminated(wk, None, "", 0));
    ReachOne(Init(), s1, Start(wk, again, 0));
    TerminateFirst(wk, p);
    StartAgain(Reach(Init(), s1), wk, p, again);
  }

  // --------------------------------------------------------------- repeated starts

  /** The step puts another run in the workflow's current_executions row: a start
      that is not a repetition and found no open run, or a continue-as-new. */
  ghost predicate ReplacesCurrent(w: World, s: Step, wk: WorkflowKey)
  {
    var e := EffectOf(w, s);
    || (e.Created? && e.wk == wk && !(wk in w.db.currents && w.db.currents[wk].requestId == Client(e.params.requestId)))
    || (e.Responded? && Continuing(e.commands) && e.token.key.workflow == wk)
  }

  lemma CurrentKept(db: Db, db': Db, e: Effect, wk: WorkflowKey)
    requires Sound(db) && Changes(db, db', e) && wk in db.currents
    requires e.Created? && e.wk == wk ==> db.currents[wk].requestId == Client(e.params.requestId)
    requires e.Responded? && Continuing(e.commands) ==> e.token.key.workflow != wk
    ensures wk in db'.currents && db'.currents[wk] == db.currents[wk]
  {
    hide Sound, CompleteWorkflowTask, Extended, Continuing;
    match e {
      case Responded(token, cmds, sticky, now) => RespondedOpen(db, token, cmds, sticky, now);
      case _ =>
    }
  }

  lemma {:induction false} CurrentStays(w: World, steps: seq<Step>, wk: WorkflowKey)
    requires SoundWorld(w) && wk in w.db.currents
    requires forall n :: 0 <= n < |steps| ==> !ReplacesCurrent(Reach(w, steps[..n]), steps[n], wk)
    ensures wk in Reach(w, steps).db.currents && Reach(w, steps).db.currents[wk] == w.db.currents[wk]
  {
    hide Apply, Changes, SoundWorld;
    if steps != [] {
      var pre, s := steps[..|steps| - 1], steps[|steps| - 1];
      assert forall n :: 0 <= n <= |pre| ==> pre[..n] == steps[..n];
      CurrentStays(w, pre, wk);
      var v := Reach(w, pre);
      HistoryOnlyExtends(w, pre);
      SoundStore(v);
      StepEffect(v, s);
      assert !ReplacesCurrent(v, s, wk);
      CurrentKept(v.db, Apply(v, s).db, EffectOf(v, s), wk);
    }
  }

  /** Once a start has been answered with a run id, repeating it with the same
      request id gives the same answer and changes nothing, whatever has happened in
      between, until another run becomes current. */
  lemma RepeatedStart(w: World, wk: WorkflowKey, p: StartParams, now: int, steps: seq<Step>, p': StartParams, now': int)
    requires SoundWorld(w) && StartWorkflow(w.db, wk, p, now).Commit? && p'.requestId == p.requestId
    requires var w1 := Apply(w, Start(wk, p, now));
      forall n :: 0 <= n < |steps| ==> !ReplacesCurrent(Reach(w1, steps[..n]), steps[n], wk)
    ensures var w' := Reach(Apply(w, Start(wk, p, now)), steps);
      && StartWorkflow(w'.db, wk, p', now') == Commit(w'.db, StartWorkflow(w.db, wk, p, now).value)
      && Apply(w', Start(wk, p', now')) == w'
  {
    var w1 := Apply(w, Start(wk, p, now));
    assert wk in w1.db.currents && w1.db.currents[wk] == Current(StartWorkflow(w.db, wk, p, now).value, Client(p.requestId));
    hide ReplacesCurrent, SoundWorld;
    StepSound(w, Start(wk, p, now));
    CurrentStays(w1, steps, wk);
  }
}
