/** Exactly when the ids of a run's activities and timers stay 1, 2, 3, ... */
module Numbering {
  import opened Events
  import Replayer
  import opened StickyReplay
  import opened ReplayPaths
  import opened Rounds
  import opened Store
  import opened World
  import opened Effects
  import opened Soundness
  import opened Leases
  import opened Conservation
  import opened Wakeups
  import opened ReplaySafety

  /** The response is what the workflow code gives on the history it was sent. */
  ghost predicate DecidedByCode(code: RunKey -> Replayer.Program, w: World, s: Step)
  {
    s.Complete? && HasToken(w, s.lease) && EffectOf(w, s).Responded? ==>
      var t := w.tickets[s.lease];
      exists r :: Replayer.Settles(code(t.token.key), Replayer.FullLoad(t.progress.history), r) && !r.phase.Panicked?
                  && r.newCommands == s.commands
  }

  /** An accepted response schedules nothing, or was sent everything scheduled so far;
      activities and timers apart. */
  ghost predicate SawEverything(w: World, s: Step)
  {
    s.Complete? && HasToken(w, s.lease) && EffectOf(w, s).Responded? ==>
      var t := w.tickets[s.lease];
      SeenAll(t.progress.history, HistoryOf(w.db.runs, t.token.key), s.commands)
  }

  ghost predicate AllNumbered(db: Db)
  {
    forall k :: NumberedInOrder(HistoryOf(db.runs, k))
  }

  lemma QuietNumbered(a: seq<HistoryEvent>, b: seq<HistoryEvent>)
    requires HasAllResponses(a, b)
    ensures NumberedInOrder(b) <==> NumberedInOrder(a)
  {
    hide RecordedActivities, RecordedTimers;
    QuietTail(a, b);
  }

  lemma RespondedNumbered(p: Replayer.Program, db: Db, token: TaskToken, d: seq<HistoryEvent>, cmds: seq<Command>, sticky: Option<Sticky>, now: int, r: Replayer.Exec)
    requires Sound(db) && CompleteWorkflowTask(db, token, cmds, sticky, now).Commit? && AllNumbered(db)
    requires d <= HistoryOf(db.runs, token.key) && r.newCommands == cmds
    requires Replayer.Settles(p, Replayer.FullLoad(d), r) && !r.phase.Panicked?
    ensures AllNumbered(CompleteWorkflowTask(db, token, cmds, sticky, now).db) <==> SeenAll(d, HistoryOf(db.runs, token.key), cmds)
  {
    hide Sound, CompleteWorkflowTask, NumberedInOrder, SeenAll, RecordsExactly;
    var db' := CompleteWorkflowTask(db, token, cmds, sticky, now).db;
    RespondedHistories(db, token, cmds, sticky, now, token.key);
    CommandsReadBack(db.runs[token.key], cmds, db.nextUuid, now);
    var h, events := HistoryOf(db.runs, token.key), ResponseEvents(db.runs[token.key], cmds, db.nextUuid, now);
    assert (h + events)[|h|..] == events;
    ResponseNumbersIff(p, d, r, h, h + events);
    forall k | k != token.key ensures NumberedInOrder(HistoryOf(db'.runs, k)) {
      RespondedHistories(db, token, cmds, sticky, now, k);
      QuietNumbered(HistoryOf(db.runs, k), HistoryOf(db'.runs, k));
    }
  }

  lemma StepNumberedIff(code: RunKey -> Replayer.Program, w: World, s: Step)
    requires SoundWorld(w) && LeaseSafe(w) && Deliveries(w) && AllNumbered(w.db) && DecidedByCode(code, w, s)
    ensures AllNumbered(Apply(w, s).db) <==> SawEverything(w, s)
  {
    hide Apply, Changes, Grounded, Sound, LeaseSafe, NumberedInOrder, CompleteWorkflowTask, SeenAll, EffectOf;
    var w', e := Apply(w, s), EffectOf(w, s);
    StepEffect(w, s);
    StepGrounded(w, s);
    if e.Responded? {
      RespondedStep(w, s);
      assert DeliveredWell(w, s.lease);
      var t := w.tickets[s.lease];
      var r :| Replayer.Settles(code(t.token.key), Replayer.FullLoad(t.progress.history), r) && !r.phase.Panicked? && r.newCommands == s.commands;
      RespondedNumbered(code(t.token.key), w.db, t.token, t.progress.history, s.commands, s.sticky, s.now, r);
    } else {
      forall k ensures NumberedInOrder(HistoryOf(w'.db.runs, k)) {
        EffectNoResponses(w.db, w'.db, e, k);
        QuietNumbered(HistoryOf(w.db.runs, k), HistoryOf(w'.db.runs, k));
      }
    }
  }

  // ------------------------------------------------------------------ whole runs

  ghost predicate DecidedRun(code: RunKey -> Replayer.Program, steps: seq<Step>)
  {
    forall n :: 0 <= n < |steps| ==> DecidedByCode(code, Reach(Init(), steps[..n]), steps[n])
  }

  ghost predicate AlwaysNumbered(steps: seq<Step>)
  {
    forall n :: 0 <= n <= |steps| ==> AllNumbered(Reach(Init(), steps[..n]).db)
  }

  ghost predicate AlwaysSawEverything(steps: seq<Step>)
  {
    forall n :: 0 <= n < |steps| ==> SawEverything(Reach(Init(), steps[..n]), steps[n])
  }

  /** For any workflow code: over any run of the store whose accepted responses come
      from replaying what was delivered, every run's activity and timer ids are always
      1, 2, 3, ... if and only if every accepted response scheduled nothing or had been
      sent everything scheduled before it. */
  lemma {:induction false} NumberedIffSeen(code: RunKey -> Replayer.Program, steps: seq<Step>)
    requires DecidedRun(code, steps)
    ensures AlwaysNumbered(steps) <==> AlwaysSawEverything(steps)
  {
    hide Reach, AllNumbered, SawEverything, DecidedByCode;
    if steps == [] {
      NothingToNumber();
      assert steps[..0] == [];
    } else {
      var pre := steps[..|steps| - 1];
      assert forall n :: 0 <= n <= |pre| ==> pre[..n] == steps[..n];
      NumberedIffSeen(code, pre);
      assert steps[..|steps|] == steps && steps == pre + [steps[|pre|]] && pre[..|pre|] == pre;
      assert AlwaysNumbered(steps) <==> AlwaysNumbered(pre) && AllNumbered(Reach(Init(), steps).db);
      assert AlwaysSawEverything(steps) <==> AlwaysSawEverything(pre) && SawEverything(Reach(Init(), pre), steps[|pre|]);
      assert DecidedByCode(code, Reach(Init(), pre), steps[|pre|]);
      if AlwaysNumbered(pre) { LastStepNumbered(code, pre, steps[|pre|]); }
    }
  }

  lemma NothingToNumber()
    ensures AllNumbered(Reach(Init(), []).db)
  {
  }

  lemma LastStepNumbered(code: RunKey -> Replayer.Program, pre: seq<Step>, s: Step)
    requires AllNumbered(Reach(Init(), pre).db) && DecidedByCode(code, Reach(Init(), pre), s)
    ensures AllNumbered(Reach(Init(), pre + [s]).db) <==> SawEverything(Reach(Init(), pre), s)
  {
    hide Reach, AllNumbered, SawEverything, DecidedByCode, SoundWorld, LeaseSafe, Deliveries;
    ReachOne(Init(), pre, s);
    ReachableLeases(pre);
    ReachableDeliveries(pre);
    StepNumberedIff(code, Reach(Init(), pre), s);
  }
}
