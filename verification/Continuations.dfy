/** Continue-as-new: every closing event has its own replacement run, every
    replacement its one closing event, and the links never come back. */
module Continuations {
  import opened Events
  import opened Store
  import opened World
  import opened Effects
  import opened Soundness
  import opened Leases
  import opened Conservation

  /** The run begins with its start and its first scheduled task. */
  ghost predicate Born(run: Run)
  {
    && |run.history| >= 2 && run.history[0].attributes.WorkflowExecutionStarted?
    && run.history[1].attributes.WorkflowTaskScheduled?
  }

  /** The run this one continues, if any. */
  ghost function Origin(run: Run): Option<Uuid>
    requires Born(run)
  {
    run.history[0].attributes.continuedFrom
  }

  /** Event i of the run's history closes it in favour of run `id`. */
  ghost predicate LinkAt(runs: map<RunKey, Run>, key: RunKey, i: int, id: Uuid)
  {
    && key in runs && 0 <= i < |runs[key].history|
    && runs[key].history[i].attributes.WorkflowExecutionContinuedAsNew?
    && runs[key].history[i].attributes.newRunId == id
  }

  /** The run started with the type, task queue and input the closing event gives. */
  ghost predicate StartedAs(run: Run, closing: Attributes)
    requires Born(run) && closing.WorkflowExecutionContinuedAsNew?
  {
    var start := run.history[0].attributes;
    && start.workflowType == closing.workflowType && start.taskQueue == closing.taskQueue && start.input == closing.input
    && run.workflowType == closing.workflowType && run.taskQueue == closing.taskQueue
  }

  /** Run `id` of the same workflow takes over from this run. */
  ghost predicate TakesOver(runs: map<RunKey, Run>, key: RunKey, i: int, id: Uuid)
    requires LinkAt(runs, key, i, id)
  {
    var next := RunKey(key.workflow, id);
    && next in runs && Born(runs[next]) && Origin(runs[next]) == Some(key.runId)
    && StartedAs(runs[next], runs[key].history[i].attributes)
    && runs[next].executionTimeout == runs[key].executionTimeout && key.runId < id
  }

  ghost predicate HasLink(runs: map<RunKey, Run>, key: RunKey, id: Uuid)
  {
    exists i :: LinkAt(runs, key, i, id)
  }

  ghost predicate Chained(runs: map<RunKey, Run>)
  {
    && (forall k :: k in runs ==> Born(runs[k]))
    && (forall key, i, id :: LinkAt(runs, key, i, id) ==> TakesOver(runs, key, i, id))
    && (forall k, i, k', i', id :: LinkAt(runs, k, i, id) && LinkAt(runs, k', i', id) ==> k == k' && i == i')
    && (forall k :: k in runs && Origin(runs[k]).Some? ==>
          HasLink(runs, RunKey(k.workflow, Origin(runs[k]).value), k.runId))
  }

  // ------------------------------------------------------------------ growing runs

  /** The run keeps its past, its type, its task queue and its execution timeout. */
  ghost predicate Prolongs(a: Run, b: Run)
  {
    && a.history <= b.history && b.executionTimeout == a.executionTimeout
    && b.workflowType == a.workflowType && b.taskQueue == a.taskQueue
  }

  /** Old links stay, new ones are those listed here. */
  ghost predicate NewLinks(runs: map<RunKey, Run>, runs': map<RunKey, Run>, links: set<(RunKey, int, Uuid)>)
  {
    forall k, i, id: Uuid :: LinkAt(runs', k, i, id) ==> LinkAt(runs, k, i, id) || (k, i, id) in links
  }

  lemma LinksStay(runs: map<RunKey, Run>, runs': map<RunKey, Run>)
    requires forall k :: k in runs ==> k in runs' && Prolongs(runs[k], runs'[k])
    ensures forall k, i, id :: LinkAt(runs, k, i, id) ==> LinkAt(runs', k, i, id)
    ensures forall k, id :: HasLink(runs, k, id) ==> HasLink(runs', k, id)
  {
    forall k, id | HasLink(runs, k, id) ensures HasLink(runs', k, id) {
      var i :| LinkAt(runs, k, i, id);
      assert LinkAt(runs', k, i, id);
    }
  }

  lemma TakesOverStays(runs: map<RunKey, Run>, runs': map<RunKey, Run>, key: RunKey, i: int, id: Uuid)
    requires forall k :: k in runs ==> k in runs' && Prolongs(runs[k], runs'[k])
    requires LinkAt(runs, key, i, id) && TakesOver(runs, key, i, id)
    ensures LinkAt(runs', key, i, id) && TakesOver(runs', key, i, id)
  {
  }

  /** No new links and no new continued runs. */
  lemma QuietChains(runs: map<RunKey, Run>, runs': map<RunKey, Run>)
    requires Chained(runs) && (forall k :: k in runs ==> k in runs' && Prolongs(runs[k], runs'[k]))
    requires NewLinks(runs, runs', {})
    requires forall k :: k in runs' && k !in runs ==> Born(runs'[k]) && Origin(runs'[k]).None?
    ensures Chained(runs')
  {
    LinksStay(runs, runs');
    forall key, i, id | LinkAt(runs', key, i, id) ensures TakesOver(runs', key, i, id) {
      assert LinkAt(runs, key, i, id);
      TakesOverStays(runs, runs', key, i, id);
    }
    forall k, i, k', i', id | LinkAt(runs', k, i, id) && LinkAt(runs', k', i', id) ensures k == k' && i == i' {
      assert LinkAt(runs, k, i, id) && LinkAt(runs, k', i', id);
    }
    forall k | k in runs' && Origin(runs'[k]).Some? ensures HasLink(runs', RunKey(k.workflow, Origin(runs'[k]).value), k.runId) {
      assert k in runs && Origin(runs[k]) == Origin(runs'[k]);
    }
  }

  /** One new link, to one new run. */
  lemma LinkedChains(runs: map<RunKey, Run>, runs': map<RunKey, Run>, key: RunKey, at: int, id: Uuid)
    requires Chained(runs) && (forall k :: k in runs ==> k in runs' && Prolongs(runs[k], runs'[k]) && k.runId < id)
    requires key in runs && LinkAt(runs', key, at, id) && TakesOver(runs', key, at, id)
    requires NewLinks(runs, runs', {(key, at, id)})
    requires forall k :: k in runs' && k !in runs ==> k == RunKey(key.workflow, id)
    ensures Chained(runs')
  {
    LinksStay(runs, runs');
    assert HasLink(runs', key, id);
    forall k, i, id' | LinkAt(runs', k, i, id') ensures TakesOver(runs', k, i, id') {
      if LinkAt(runs, k, i, id') { TakesOverStays(runs, runs', k, i, id'); }
    }
    forall k, i, k', i', id' | LinkAt(runs', k, i, id') && LinkAt(runs', k', i', id') ensures k == k' && i == i' {
      OldOrNewLinks(runs, k, i, k', i', id', (key, at, id));
    }
    forall k | k in runs' && Origin(runs'[k]).Some? ensures HasLink(runs', RunKey(k.workflow, Origin(runs'[k]).value), k.runId) {
      if k in runs { assert Origin(runs[k]) == Origin(runs'[k]); }
    }
  }

  /** A fresh run id cannot be the target of an old link. */
  lemma OldOrNewLinks(runs: map<RunKey, Run>, k: RunKey, i: int, k': RunKey, i': int, id: Uuid, link: (RunKey, int, Uuid))
    requires Chained(runs) && forall n :: n in runs ==> n.runId < link.2
    requires LinkAt(runs, k, i, id) || (k, i, id) == link
    requires LinkAt(runs, k', i', id) || (k', i', id) == link
    ensures k == k' && i == i'
  {
    assert LinkAt(runs, k, i, id) ==> RunKey(k.workflow, id) in runs;
    assert LinkAt(runs, k', i', id) ==> RunKey(k'.workflow, id) in runs;
  }

  // -------------------------------------------------------------------- each effect

  lemma ExtendedLinks(run: Run, attrs: seq<Attributes>, now: int)
    ensures Prolongs(run, Extended(run, attrs, now)) && |Extended(run, attrs, now).history| == |run.history| + |attrs|
    ensures forall i :: |run.history| <= i < |run.history| + |attrs| ==>
      Extended(run, attrs, now).history[i].attributes == attrs[i - |run.history|]
  {
  }

  lemma AppendChains(runs: map<RunKey, Run>, key: RunKey, run': Run, attrs: seq<Attributes>, now: int)
    requires Chained(runs) && key in runs
    requires run'.history == Extended(runs[key], attrs, now).history && Prolongs(runs[key], run')
    requires forall i :: 0 <= i < |attrs| ==> !attrs[i].WorkflowExecutionContinuedAsNew?
    ensures Chained(runs[key := run'])
  {
    hide Chained, Extended;
    ExtendedLinks(runs[key], attrs, now);
    var runs' := runs[key := run'];
    assert forall i :: |runs[key].history| <= i < |run'.history| ==> !run'.history[i].attributes.WorkflowExecutionContinuedAsNew?;
    assert NewLinks(runs, runs', {});
    QuietChains(runs, runs');
  }

  lemma SameHistoriesChains(runs: map<RunKey, Run>, runs': map<RunKey, Run>)
    requires Chained(runs) && runs'.Keys == runs.Keys
    requires forall k :: k in runs ==> runs'[k].history == runs[k].history && Prolongs(runs[k], runs'[k])
    ensures Chained(runs')
  {
    hide Chained;
    assert NewLinks(runs, runs', {});
    QuietChains(runs, runs');
  }

  lemma StartChains(db: Db, wk: WorkflowKey, p: StartParams, now: int)
    requires Sound(db) && Chained(db.runs) && StartWorkflow(db, wk, p, now).Commit?
    ensures Chained(StartWorkflow(db, wk, p, now).db.runs)
  {
    hide SoundRows, Chained;
    FreshRun(db, wk);
    var runs' := StartWorkflow(db, wk, p, now).db.runs;
    assert NewLinks(db.runs, runs', {});
    QuietChains(db.runs, runs');
  }

  /** At most one command is terminal. */
  lemma {:induction false} OneTerminal(cmds: seq<Command>, i: nat, j: nat)
    requires i < |cmds| && j < |cmds| && Terminal(cmds[i]) && Terminal(cmds[j]) && Count(cmds, Terminal) <= 1
    ensures i == j
  {
    var n := |cmds| - 1;
    if i < n && j < n {
      OneTerminal(cmds[..n], i, j);
    } else if i < n {
      CountsOne(cmds[..n], i);
    } else if j < n {
      CountsOne(cmds[..n], j);
    }
  }

  lemma {:induction false} CountsOne(cmds: seq<Command>, i: nat)
    requires i < |cmds| && Terminal(cmds[i])
    ensures Count(cmds, Terminal) >= 1
  {
    if i < |cmds| - 1 { CountsOne(cmds[..|cmds| - 1], i); }
  }

  /** All runs but one are as they were; a replacement run is there if one is due. */
  ghost predicate Replaced(runs: map<RunKey, Run>, runs': map<RunKey, Run>, key: RunKey, run: Run, c: Option<Command>, id: Uuid)
  {
    var next := RunKey(key.workflow, id);
    && key in runs' && (forall k :: k in runs && k != key ==> k in runs' && runs'[k] == runs[k])
    && (if c.Some? && c.value.ContinueAsNewWorkflowExecution? then
          && next !in runs && runs'.Keys == runs.Keys + {next} && Born(runs'[next]) && |runs'[next].history| == 2
          && Origin(runs'[next]) == Some(key.runId) && runs'[next].executionTimeout == run.executionTimeout
          && StartedAs(runs'[next], EventOf(c.value, run, id))
        else runs'.Keys == runs.Keys)
  }

  predicate Continuing(cmds: seq<Command>)
  {
    TerminalOf(cmds).Some? && TerminalOf(cmds).value.ContinueAsNewWorkflowExecution?
  }

  /** The runs after an accepted response. */
  lemma RespondedRuns(db: Db, token: TaskToken, cmds: seq<Command>, sticky: Option<Sticky>, now: int)
    requires Sound(db) && CompleteWorkflowTask(db, token, cmds, sticky, now).Commit?
    ensures token.key in db.runs && Unsupported !in cmds && Count(cmds, Terminal) <= 1
    ensures var runs', run := CompleteWorkflowTask(db, token, cmds, sticky, now).db.runs, db.runs[token.key];
      && Replaced(db.runs, runs', token.key, run, TerminalOf(cmds), db.nextUuid)
      && runs'[token.key].history == Extended(run, [WorkflowTaskCompleted] + EventsOf(cmds, run, db.nextUuid), now).history
      && Prolongs(run, runs'[token.key])
  {
    hide Sound, CompleteWorkflowTask, Conclude, EventsOf, Extended, Replaced, Count;
    var mid := AcceptedResponse(db, token, cmds, sticky, now);
    FreshRun(mid, token.key.workflow);
    ExtendedLinks(db.runs[token.key], [WorkflowTaskCompleted] + EventsOf(cmds, db.runs[token.key], db.nextUuid), now);
    ConcludeRuns(mid, token.key, db.runs[token.key], cmds, db.nextUuid, sticky, now);
    var runs' := CompleteWorkflowTask(db, token, cmds, sticky, now).db.runs;
    ReplacedSince(db.runs, mid.runs, runs', token.key, db.runs[token.key], TerminalOf(cmds), db.nextUuid);
  }

  lemma ReplacedSince(runs: map<RunKey, Run>, mid: map<RunKey, Run>, runs': map<RunKey, Run>, key: RunKey, run: Run, c: Option<Command>, id: Uuid)
    requires key in runs && key in mid && mid == runs[key := mid[key]] && Replaced(mid, runs', key, run, c, id)
    ensures Replaced(runs, runs', key, run, c, id)
  {
    hide Born, Origin, StartedAs;
  }

  lemma CloseWithRuns(db: Db, key: RunKey, run: Run, c: Command, newRunId: Uuid, now: int)
    requires key in db.runs && RunKey(key.workflow, newRunId) !in db.runs && Terminal(c)
    ensures var runs' := CloseWith(db, key, run, c, newRunId, now).runs;
      && Replaced(db.runs, runs', key, run, Some(c), newRunId)
      && runs'[key].history == db.runs[key].history && Prolongs(db.runs[key], runs'[key])
  {
    hide StringOrFallback, DurationOrFallback;
  }

  lemma ConcludeRuns(db: Db, key: RunKey, run: Run, cmds: seq<Command>, newRunId: Uuid, sticky: Option<Sticky>, now: int)
    requires key in db.runs && RunKey(key.workflow, newRunId) !in db.runs
    ensures var runs' := Conclude(db, key, run, cmds, newRunId, sticky, now).runs;
      && Replaced(db.runs, runs', key, run, TerminalOf(cmds), newRunId)
      && runs'[key].history == db.runs[key].history && Prolongs(db.runs[key], runs'[key])
  {
    hide CloseWith, Born, Origin;
    if TerminalOf(cmds).Some? { CloseWithRuns(db, key, run, TerminalOf(cmds).value, newRunId, now); }
  }

  /** The place of the one continue-as-new command, if that is how the response ends. */
  lemma ContinuationAt(cmds: seq<Command>) returns (j: int)
    requires Count(cmds, Terminal) <= 1
    ensures if Continuing(cmds)
            then 0 <= j < |cmds| && TerminalOf(cmds) == Some(cmds[j]) && cmds[j].ContinueAsNewWorkflowExecution?
            else j == -1
    ensures forall i :: 0 <= i < |cmds| && i != j ==> !cmds[i].ContinueAsNewWorkflowExecution?
  {
    j := -1;
    forall i | 0 <= i < |cmds| ensures cmds[i] in cmds { }
    if TerminalOf(cmds).Some? {
      var t :| 0 <= t < |cmds| && cmds[t] == TerminalOf(cmds).value;
      forall i | 0 <= i < |cmds| && Terminal(cmds[i]) ensures i == t { OneTerminal(cmds, i, t); }
      if cmds[t].ContinueAsNewWorkflowExecution? { j := t; }
    }
  }

  /** Of the events a response adds, only the one for that command is a link. */
  lemma CommandLinks(cmds: seq<Command>, run: Run, newRunId: Uuid, j: int)
    requires Unsupported !in cmds
    requires forall i :: 0 <= i < |cmds| && i != j ==> !cmds[i].ContinueAsNewWorkflowExecution?
    ensures var attrs := [WorkflowTaskCompleted] + EventsOf(cmds, run, newRunId);
      && |attrs| == |cmds| + 1
      && (forall i :: 0 <= i < |attrs| && i != j + 1 ==> !attrs[i].WorkflowExecutionContinuedAsNew?)
      && (0 <= j < |cmds| && cmds[j].ContinueAsNewWorkflowExecution? ==>
            && attrs[j + 1] == EventOf(cmds[j], run, newRunId)
            && attrs[j + 1].WorkflowExecutionContinuedAsNew? && attrs[j + 1].newRunId == newRunId)
  {
    var attrs := [WorkflowTaskCompleted] + EventsOf(cmds, run, newRunId);
    forall i | 0 < i < |attrs| ensures attrs[i] == EventOf(cmds[i - 1], run, newRunId) { }
  }

  /** The links of the runs after a response. */
  lemma ResponseLinks(runs: map<RunKey, Run>, runs': map<RunKey, Run>, key: RunKey, attrs: seq<Attributes>, at: int, id: Uuid)
    requires key in runs && key in runs' && runs[key].history <= runs'[key].history
    requires |runs'[key].history| == |runs[key].history| + |attrs|
    requires forall i :: |runs[key].history| <= i < |runs'[key].history| ==>
      runs'[key].history[i].attributes == attrs[i - |runs[key].history|]
    requires forall i :: 0 <= i < |attrs| && i != at ==> !attrs[i].WorkflowExecutionContinuedAsNew?
    requires 0 <= at < |attrs| && attrs[at].WorkflowExecutionContinuedAsNew? ==> attrs[at].newRunId == id
    requires forall k :: k in runs && k != key ==> k in runs' && runs'[k] == runs[k]
    requires forall k :: k in runs' && k !in runs ==> Born(runs'[k]) && |runs'[k].history| == 2
    ensures NewLinks(runs, runs', {(key, |runs[key].history| + at, id)})
    ensures at < 0 || at >= |attrs| || !attrs[at].WorkflowExecutionContinuedAsNew? ==> NewLinks(runs, runs', {})
  {
    forall k, i, id' | LinkAt(runs', k, i, id') && !LinkAt(runs, k, i, id')
      ensures k == key && i == |runs[key].history| + at && id' == id && 0 <= at < |attrs| && attrs[at].WorkflowExecutionContinuedAsNew?
    {
      assert k == key && i >= |runs[key].history|;
      assert runs'[key].history[i].attributes == attrs[i - |runs[key].history|];
    }
  }

  lemma RespondedChains(db: Db, token: TaskToken, cmds: seq<Command>, sticky: Option<Sticky>, now: int)
    requires Sound(db) && Chained(db.runs) && CompleteWorkflowTask(db, token, cmds, sticky, now).Commit?
    ensures Chained(CompleteWorkflowTask(db, token, cmds, sticky, now).db.runs)
  {
    hide CompleteWorkflowTask, Chained, Extended, EventsOf, EventOf, SoundRows, NewLinks, GoodRun, TerminalOf;
    RespondedRuns(db, token, cmds, sticky, now);
    var key, run, id := token.key, db.runs[token.key], db.nextUuid;
    var runs' := CompleteWorkflowTask(db, token, cmds, sticky, now).db.runs;
    var attrs := [WorkflowTaskCompleted] + EventsOf(cmds, run, id);
    ExtendedLinks(run, attrs, now);
    var j := ContinuationAt(cmds);
    CommandLinks(cmds, run, id, j);
    ResponseLinks(db.runs, runs', key, attrs, j + 1, id);
    if j >= 0 {
      var at := |run.history| + 1 + j;
      assert runs'[key].history[at].attributes == attrs[j + 1];
      LinkedChains(db.runs, runs', key, at, id);
    } else {
      QuietChains(db.runs, runs');
    }
  }

  lemma EffectChains(db: Db, db': Db, e: Effect)
    requires Sound(db) && Changes(db, db', e) && Grounded(db, e) && Chained(db.runs)
    ensures Chained(db'.runs)
  {
    hide Sound, Chained, CompleteWorkflowTask, StartWorkflow, Extended;
    match e {
      case Quiet => SameHistoriesChains(db.runs, db'.runs);
      case Requeued(_, _, _, _) => SameHistoriesChains(db.runs, db'.runs);
      case Noted(key, event, now) => ExtendedLinks(db.runs[key], [event], now); AppendChains(db.runs, key, db'.runs[key], [event], now);
      case Closed(key, reason, now) =>
        var attrs := [WorkflowExecutionTerminated(reason)];
        ExtendedLinks(db.runs[key], attrs, now);
        AppendChains(db.runs, key, db'.runs[key], attrs, now);
        assert db'.runs == db.runs[key := db'.runs[key]];
      case Woken(key, cause, now, _, _) =>
        var attrs := [cause, WorkflowTaskScheduled(db.runs[key].taskQueue)];
        ExtendedLinks(db.runs[key], attrs, now);
        AppendChains(db.runs, key, db'.runs[key], attrs, now);
      case Created(wk, p, now) => StartChains(db, wk, p, now);
      case Responded(token, cmds, sticky, now) => RespondedChains(db, token, cmds, sticky, now);
    }
  }

  /** In every reachable state, every ContinuedAsNew event names an existing run of
      the same workflow that begins with a start continued from the closing run, of
      the type and with the queue and input the event gives, and a scheduled task; no two events name the same run; a run that says it was
      continued from another has its event there; and the execution timeout is
      handed on. */
  lemma {:induction false} ReachableChained(steps: seq<Step>)
    ensures Chained(Reach(Init(), steps).db.runs)
  {
    hide Apply, Changes, Grounded, Chained, SoundWorld, LeaseSafe;
    if steps == [] {
      EmptyChained();
    } else {
      var pre, s := steps[..|steps| - 1], steps[|steps| - 1];
      var w := Reach(Init(), pre);
      ReachableChained(pre);
      ReachableLeases(pre);
      StepEffect(w, s);
      StepGrounded(w, s);
      SoundStore(w);
      EffectChains(w.db, Apply(w, s).db, EffectOf(w, s));
    }
  }

  lemma SoundStore(w: World)
    requires SoundWorld(w)
    ensures Sound(w.db)
  {
  }

  lemma EmptyChained()
    ensures Chained(Init().db.runs)
  {
  }

  /** Each run of the chain is continued as the next. */
  ghost predicate Chain(runs: map<RunKey, Run>, keys: seq<RunKey>)
  {
    && (forall i :: 0 <= i < |keys| ==> keys[i] in runs)
    && (forall i :: 0 < i < |keys| ==>
          keys[i].workflow == keys[i - 1].workflow && HasLink(runs, keys[i - 1], keys[i].runId))
  }

  /** However long, a chain never returns to a run and keeps one execution timeout. */
  lemma {:induction false} ChainsNeverCycle(runs: map<RunKey, Run>, keys: seq<RunKey>, i: nat, j: nat)
    requires Chained(runs) && Chain(runs, keys) && i < j < |keys|
    ensures keys[i] != keys[j] && keys[i].runId < keys[j].runId
    ensures runs[keys[i]].executionTimeout == runs[keys[j]].executionTimeout
  {
    if i < j - 1 { ChainsNeverCycle(runs, keys, i, j - 1); }
    assert HasLink(runs, keys[j - 1], keys[j].runId);
    var n :| LinkAt(runs, keys[j - 1], n, keys[j].runId);
    assert TakesOver(runs, keys[j - 1], n, keys[j].runId);
    assert keys[j] == RunKey(keys[j - 1].workflow, keys[j].runId);
  }

  /** A continued run has exactly one predecessor: chains never merge. */
  lemma ChainsNeverMerge(runs: map<RunKey, Run>, a: RunKey, b: RunKey, next: RunKey)
    requires Chained(runs) && Chain(runs, [a, next]) && Chain(runs, [b, next])
    ensures a == b
  {
    assert HasLink(runs, [a, next][0], [a, next][1].runId) && HasLink(runs, [b, next][0], [b, next][1].runId);
    var i :| LinkAt(runs, a, i, next.runId);
    var j :| LinkAt(runs, b, j, next.runId);
  }
}
