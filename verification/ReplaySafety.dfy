/** The join of store and replayer: commands become events, events are read back,
    and replay never disagrees with the record. */
module ReplaySafety {
  import opened Events
  import Replayer
  import opened StickyReplay
  import opened ReplayPaths
  import opened Store
  import opened World
  import opened Effects
  import opened Soundness
  import opened Leases
  import opened Conservation

  // -------------------------------------------------------- one outcome for each

  lemma {:induction false} NumberedTally(h: seq<HistoryEvent>, id: int)
    requires NumberedInOrder(h)
    ensures Tally(h, ActivityStart, id) == if 1 <= id <= |RecordedActivities(h)| then 1 else 0
  {
    if h != [] {
      var pre, ev := h[..|h| - 1], h[|h| - 1];
      LoadEventRecords(Replayer.FullLoad(pre), ev);
      assert RecordedActivities(h)[..|RecordedActivities(pre)|] == RecordedActivities(pre);
      assert RecordedTimers(h)[..|RecordedTimers(pre)|] == RecordedTimers(pre);
      assert forall i :: 0 <= i < |RecordedActivities(pre)| ==> RecordedActivities(pre)[i] == RecordedActivities(h)[i];
      assert forall i :: 0 <= i < |RecordedTimers(pre)| ==> RecordedTimers(pre)[i] == RecordedTimers(h)[i];
      NumberedTally(pre, id);
      if ev.attributes.ActivityTaskScheduled? {
        var n := |RecordedActivities(pre)|;
        assert RecordedActivities(h)[n].activityId == n + 1;
      }
    }
  }

  lemma {:induction false} TallyPrefix(h: seq<HistoryEvent>, n: nat, kind: Kind, id: int)
    requires n <= |h|
    ensures Tally(h[..n], kind, id) <= Tally(h, kind, id)
  {
    assert h == h[..n] + h[n..];
    TallyConcat(h[..n], h[n..], kind, id);
  }

  lemma {:induction false} TalliedOnce(h: seq<HistoryEvent>)
    requires forall id :: Tally(h, ActivityEnd, id) <= 1
    ensures UniqueOutcomes(h)
  {
    forall i, j | 0 <= i < j < |h| && OutcomeOf(h[i]).Some? && OutcomeOf(h[j]).Some?
      ensures OutcomeOf(h[i]).value != OutcomeOf(h[j]).value
    {
      var id := OutcomeOf(h[j]).value;
      if OutcomeOf(h[i]).value == id { TwoOutcomes(h, i, j, id); }
    }
  }

  lemma {:induction false} TwoOutcomes(h: seq<HistoryEvent>, i: nat, j: nat, id: int)
    requires i < j < |h| && OutcomeOf(h[i]) == Some(id) && OutcomeOf(h[j]) == Some(id)
    ensures Tally(h, ActivityEnd, id) >= 2
  {
    assert h[..i + 1][..i] == h[..i] && h[..j + 1][..j] == h[..j] && h[..j][..i + 1] == h[..i + 1];
    TallyPrefix(h[..j], i + 1, ActivityEnd, id);
    TallyPrefix(h, j + 1, ActivityEnd, id);
  }

  /** Numbered activities and conservation leave one outcome per activity. */
  lemma ConservedOutcomes(db: Db, key: RunKey)
    requires ActivitiesConserved(db) && NumberedInOrder(HistoryOf(db.runs, key))
    ensures UniqueOutcomes(HistoryOf(db.runs, key))
  {
    hide UniqueOutcomes, NumberedInOrder, RecordedActivities;
    var h := HistoryOf(db.runs, key);
    forall id ensures Tally(h, ActivityEnd, id) <= 1 {
      assert ActivityConserved(db, key, id);
      NumberedTally(h, id);
    }
    TalliedOnce(h);
  }

  // ----------------------------------------------------- what steps do to histories

  lemma StampQuiet(h: seq<HistoryEvent>, first: int, attrs: seq<Attributes>, now: int)
    requires forall i :: 0 <= i < |attrs| ==> !FromResponse(attrs[i])
    ensures HasAllResponses(h, h + Stamp(first, attrs, now))
  {
  }

  ghost predicate NoResponses(db: Db, db': Db, k: RunKey)
  {
    HasAllResponses(HistoryOf(db.runs, k), HistoryOf(db'.runs, k))
  }

  lemma AppendNoResponses(db: Db, key: RunKey, attrs: seq<Attributes>, now: int, k: RunKey)
    requires key in db.runs && forall i :: 0 <= i < |attrs| ==> !FromResponse(attrs[i])
    ensures NoResponses(db, Append(db, key, attrs, now), k)
  {
    StampQuiet(db.runs[key].history, db.runs[key].nextEventId, attrs, now);
  }

  lemma CreateNoResponses(db: Db, key: RunKey, requestId: RequestId, workflowType: string, taskQueue: string, input: Payload,
    retryPolicy: Option<RetryPolicy>, executionTimeout: Option<int>, runTimeout: Option<int>,
    taskTimeout: Option<int>, continuedFrom: Option<Uuid>, now: int, k: RunKey)
    requires key !in db.runs
    ensures var db' := CreateRun(db, key, requestId, workflowType, taskQueue, input, retryPolicy,
                                 executionTimeout, runTimeout, taskTimeout, continuedFrom, now);
      NoResponses(db, db', k)
  {
    var run := Run(workflowType, taskQueue, RUNNING, 1, executionTimeout, runTimeout, taskTimeout, None, None, now, None, []);
    var started := [WorkflowExecutionStarted(workflowType, taskQueue, input, retryPolicy, continuedFrom),
                    WorkflowTaskScheduled(taskQueue)];
    StampQuiet([], 1, started, now);
    assert Extended(run, started, now).history == [] + Stamp(1, started, now);
    hide Extended, Stamp;
  }

  lemma StartNoResponses(db: Db, wk: WorkflowKey, p: StartParams, now: int, k: RunKey)
    requires Sound(db) && StartWorkflow(db, wk, p, now).Commit?
    ensures NoResponses(db, StartWorkflow(db, wk, p, now).db, k)
  {
    hide SoundRows, CreateRun;
    FreshRun(db, wk);
    CreateNoResponses(db.(nextUuid := db.nextUuid + 1), RunKey(wk, db.nextUuid), Client(p.requestId), p.workflowType, p.taskQueue, p.input,
      p.retryPolicy, PositiveOrNone(p.executionTimeout), PositiveOrNone(p.runTimeout), PositiveOrNone(p.taskTimeout), None, now, k);
  }

  lemma CloseWithNoResponses(db: Db, key: RunKey, run: Run, c: Command, newRunId: Uuid, now: int, k: RunKey)
    requires key in db.runs && RunKey(key.workflow, newRunId) !in db.runs && Terminal(c)
    ensures NoResponses(db, CloseWith(db, key, run, c, newRunId, now), k)
    ensures k == key ==> HistoryOf(CloseWith(db, key, run, c, newRunId, now).runs, k) == HistoryOf(db.runs, k)
  {
    hide StringOrFallback, DurationOrFallback;
  }

  lemma ConcludeNoResponses(db: Db, key: RunKey, run: Run, cmds: seq<Command>, newRunId: Uuid, sticky: Option<Sticky>, now: int, k: RunKey)
    requires Sound(db) && key in db.runs && newRunId == db.nextUuid
    ensures NoResponses(db, Conclude(db, key, run, cmds, newRunId, sticky, now), k)
    ensures k == key ==> HistoryOf(Conclude(db, key, run, cmds, newRunId, sticky, now).runs, k) == HistoryOf(db.runs, k)
  {
    hide Sound, CloseWith;
    FreshRun(db, key.workflow);
    if TerminalOf(cmds).Some? { CloseWithNoResponses(db, key, run, TerminalOf(cmds).value, newRunId, now, k); }
  }

  lemma EffectNoResponses(db: Db, db': Db, e: Effect, k: RunKey)
    requires Sound(db) && Changes(db, db', e) && Grounded(db, e) && !e.Responded?
    ensures NoResponses(db, db', k)
  {
    hide Sound, CompleteWorkflowTask, StartWorkflow;
    match e {
      case Created(wk, p, now) => StartNoResponses(db, wk, p, now, k);
      case Noted(key, event, now) => AppendNoResponses(db, key, [event], now, k);
      case Closed(key, reason, now) => AppendNoResponses(db, key, [WorkflowExecutionTerminated(reason)], now, k);
      case Woken(key, cause, now, _, _) =>
        AppendNoResponses(db, key, [cause, WorkflowTaskScheduled(db.runs[key].taskQueue)], now, k);
      case _ =>
    }
  }

  // ------------------------------------------------------------ accepted responses

  /** The events a response adds to its run. */
  function ResponseEvents(run: Run, cmds: seq<Command>, newRunId: Uuid, now: int): seq<HistoryEvent>
    requires Unsupported !in cmds
  {
    Stamp(run.nextEventId, [WorkflowTaskCompleted] + EventsOf(cmds, run, newRunId), now)
  }

  lemma RespondedHistories(db: Db, token: TaskToken, cmds: seq<Command>, sticky: Option<Sticky>, now: int, k: RunKey)
    requires Sound(db) && CompleteWorkflowTask(db, token, cmds, sticky, now).Commit?
    ensures var db' := CompleteWorkflowTask(db, token, cmds, sticky, now).db;
      && token.key in db.runs && Unsupported !in cmds
      && if k == token.key
      then HistoryOf(db'.runs, k) == db.runs[k].history + ResponseEvents(db.runs[k], cmds, db.nextUuid, now)
      else NoResponses(db, db', k)
  {
    hide Sound, CompleteWorkflowTask, Conclude, EventsOf;
    var mid := AcceptedResponse(db, token, cmds, sticky, now);
    ConcludeNoResponses(mid, token.key, db.runs[token.key], cmds, db.nextUuid, sticky, now, k);
  }

  /** Reading the response's events back gives exactly its commands' activities and
      timers, in order. */
  lemma {:induction false} CommandsReadBack(run: Run, cmds: seq<Command>, newRunId: Uuid, now: int)
    requires Unsupported !in cmds
    ensures RecordsExactly(ResponseEvents(run, cmds, newRunId, now), cmds)
  {
    var events := ResponseEvents(run, cmds, newRunId, now);
    if cmds == [] {
      assert events[..0] == [];
      LoadEventRecords(Replayer.NewExec(), events[0]);
      assert Replayer.LoadHistory(Replayer.NewExec(), events[..0]) == Replayer.NewExec();
      assert events[0].attributes == WorkflowTaskCompleted;
    } else {
      var n := |cmds| - 1;
      CommandsReadBack(run, cmds[..n], newRunId, now);
      assert events[..n + 1] == ResponseEvents(run, cmds[..n], newRunId, now);
      assert events[n + 1].attributes == EventOf(cmds[n], run, newRunId);
      LoadEventRecords(Replayer.FullLoad(events[..n + 1]), events[n + 1]);
    }
  }

  // ------------------------------------------------------------------- whole runs

  /** The response is what a worker computes by running the workflow code against
      the history it was sent, and that history held every earlier response. */
  ghost predicate ComputedFrom(p: Replayer.Program, d: seq<HistoryEvent>, h: seq<HistoryEvent>, cmds: seq<Command>)
  {
    HasAllResponses(d, h) &&
    exists r :: Replayer.Settles(p, Replayer.FullLoad(d), r) && !r.phase.Panicked? && r.newCommands == cmds
  }

  /** If the step is an accepted response, it was computed from everything before. */
  ghost predicate Disciplined(code: RunKey -> Replayer.Program, w: World, s: Step)
  {
    Apply(w, s).accepted != w.accepted && s.Complete? && HasToken(w, s.lease) ==>
      var t := w.tickets[s.lease];
      ComputedFrom(code(t.token.key), t.progress.history, HistoryOf(w.db.runs, t.token.key), s.commands)
  }

  ghost predicate DisciplinedRun(code: RunKey -> Replayer.Program, steps: seq<Step>)
  {
    forall i :: 0 <= i < |steps| ==> Disciplined(code, Reach(Init(), steps[..i]), steps[i])
  }

  ghost predicate AllReplayable(code: RunKey -> Replayer.Program, db: Db)
  {
    forall k :: Replayable(code(k), HistoryOf(db.runs, k))
  }

  lemma AcceptedReplayable(p: Replayer.Program, db: Db, token: TaskToken, d: seq<HistoryEvent>, cmds: seq<Command>, sticky: Option<Sticky>, now: int)
    requires OutcomeDriven(p) && Sound(db) && ActivitiesConserved(db)
    requires CompleteWorkflowTask(db, token, cmds, sticky, now).Commit?
    requires Replayable(p, HistoryOf(db.runs, token.key)) && ComputedFrom(p, d, HistoryOf(db.runs, token.key), cmds)
    ensures Replayable(p, HistoryOf(CompleteWorkflowTask(db, token, cmds, sticky, now).db.runs, token.key))
  {
    hide Sound, ActivitiesConserved, CompleteWorkflowTask, Replayable, UniqueOutcomes, NumberedInOrder, OutcomeDriven, RecordsExactly;
    var h := HistoryOf(db.runs, token.key);
    RespondedHistories(db, token, cmds, sticky, now, token.key);
    var events := ResponseEvents(db.runs[token.key], cmds, db.nextUuid, now);
    CommandsReadBack(db.runs[token.key], cmds, db.nextUuid, now);
    ReplayableIsNumbered(p, h);
    ConservedOutcomes(db, token.key);
    var r :| Replayer.Settles(p, Replayer.FullLoad(d), r) && !r.phase.Panicked? && r.newCommands == cmds;
    assert (h + events)[|h|..] == events;
    ResponseKeepsReplayable(p, h, d, r, h + events);
  }

  lemma StepReplayable(code: RunKey -> Replayer.Program, w: World, s: Step)
    requires forall k :: OutcomeDriven(code(k))
    requires SoundWorld(w) && LeaseSafe(w) && ActivitiesConserved(w.db)
    requires AllReplayable(code, w.db) && Disciplined(code, w, s)
    ensures AllReplayable(code, Apply(w, s).db)
  {
    hide Apply, Changes, Grounded, Sound, LeaseSafe, ActivitiesConserved, OutcomeDriven, Replayable, CompleteWorkflowTask;
    var w', e := Apply(w, s), EffectOf(w, s);
    StepEffect(w, s);
    StepGrounded(w, s);
    forall k ensures Replayable(code(k), HistoryOf(w'.db.runs, k)) {
      if e.Responded? {
        RespondedStep(w, s);
        if k == e.token.key {
          AcceptedReplayable(code(k), w.db, e.token, w.tickets[s.lease].progress.history, e.commands, e.sticky, e.now);
        } else {
          RespondedHistories(w.db, e.token, e.commands, e.sticky, e.now, k);
          ReplayableGrows(code(k), HistoryOf(w.db.runs, k), HistoryOf(w'.db.runs, k));
        }
      } else {
        EffectNoResponses(w.db, w'.db, e, k);
        ReplayableGrows(code(k), HistoryOf(w.db.runs, k), HistoryOf(w'.db.runs, k));
      }
    }
  }

  /** A response that changes the tables was accepted. */
  lemma RespondedStep(w: World, s: Step)
    requires EffectOf(w, s).Responded?
    ensures s.Complete? && HasToken(w, s.lease) && Apply(w, s).accepted != w.accepted
    ensures var token := w.tickets[s.lease].token;
      && EffectOf(w, s) == Responded(token, s.commands, s.sticky, s.now)
      && CompleteWorkflowTask(w.db, token, s.commands, s.sticky, s.now).Commit?
      && Apply(w, s).db == CompleteWorkflowTask(w.db, token, s.commands, s.sticky, s.now).db
  {
    hide CompleteWorkflowTask;
  }

  lemma {:induction false} DisciplinedReplayable(code: RunKey -> Replayer.Program, steps: seq<Step>)
    requires (forall k :: OutcomeDriven(code(k))) && DisciplinedRun(code, steps)
    ensures AllReplayable(code, Reach(Init(), steps).db)
  {
    hide OutcomeDriven, Replayable, Disciplined, SoundWorld, LeaseSafe, ActivitiesConserved, TimersConserved, Apply;
    if steps == [] {
      forall k ensures Replayable(code(k), HistoryOf(Reach(Init(), steps).db.runs, k)) { EmptyReplayable(code(k)); }
    } else {
      var pre := steps[..|steps| - 1];
      forall i | 0 <= i < |pre| ensures Disciplined(code, Reach(Init(), pre[..i]), pre[i]) {
        assert pre[..i] == steps[..i];
      }
      DisciplinedReplayable(code, pre);
      ReachableLeases(pre);
      ReachableConserved(pre);
      StepReplayable(code, Reach(Init(), pre), steps[|steps| - 1]);
    }
  }

  /** Crash recovery is safe: if workflow code is driven by outcomes and every
      accepted response was computed from a history holding all earlier ones, then
      in every reachable state each run's activities and timers are numbered in
      program order and no replay of its history raises NonDeterministicError,
      whatever the order in which outcomes arrived. */
  lemma ReachableReplaysCleanly(code: RunKey -> Replayer.Program, steps: seq<Step>, key: RunKey)
    requires (forall k :: OutcomeDriven(code(k))) && DisciplinedRun(code, steps)
    ensures ReplaysCleanly(code(key), HistoryOf(Reach(Init(), steps).db.runs, key))
  {
    hide OutcomeDriven, Replayable, DisciplinedRun, ReplaysCleanly, ActivitiesConserved, TimersConserved, Apply, UniqueOutcomes, NumberedInOrder;
    var db := Reach(Init(), steps).db;
    DisciplinedReplayable(code, steps);
    ReachableConserved(steps);
    ReplayableIsNumbered(code(key), HistoryOf(db.runs, key));
    ConservedOutcomes(db, key);
    ReplayableIsClean(code(key), HistoryOf(db.runs, key));
  }
}
