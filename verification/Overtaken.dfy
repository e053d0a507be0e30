/** Cache entries that another worker has overtaken: exactly when resuming one goes
    wrong. */
module Overtaken {
  import opened Events
  import opened Replayer
  import opened StickyReplay
  import opened Rounds

  /** Since `h` the history has recorded the commands the cached Execution returned and
      then, from elsewhere, the activities `xs` and the timers `ys`. */
  ghost predicate Overtakes(c: Exec, h: seq<HistoryEvent>, h': seq<HistoryEvent>, xs: seq<ScheduledActivity>, ys: seq<ScheduledTimer>)
  {
    && Dense(h') && h <= h'
    && RecordedActivities(h'[|h|..]) == CommandedActivities(c.newCommands) + xs
    && RecordedTimers(h'[|h|..]) == CommandedTimers(c.newCommands) + ys
  }

  /** Some state of the round commands an activity. */
  ghost predicate CommandsActivity(p: Program, s: Exec)
  {
    exists n: nat :: CommandedActivities(Run(p, s, n).newCommands) != []
  }

  ghost predicate CommandsTimer(p: Program, s: Exec)
  {
    exists n: nat :: CommandedTimers(Run(p, s, n).newCommands) != []
  }

  // ------------------------------------------------------------- the common start

  lemma OvertakenLoad(p: Program, c: Exec, h: seq<HistoryEvent>, h': seq<HistoryEvent>, xs: seq<ScheduledActivity>, ys: seq<ScheduledTimer>)
    requires Caches(p, c, h) && Overtakes(c, h, h', xs, ys)
    ensures Unstarted(FullLoad(h')) && Compatible(p, FullLoad(h'), c.position)
    ensures FullLoad(h').scheduledActivities == ActivityCalls(p, c.position) + xs
    ensures |FullLoad(h').scheduledTimers| == |TimerCalls(p, c.position)| + |ys|
    ensures SameObservables(StickyLoad(c, h', |h|), FullLoad(h'))
    ensures StickyLoad(c, h', |h|) == LoadNewEvents(ResetRoundOutput(c), h'[|h|..])
  {
    hide ActivityCalls, TimerCalls, Answers, CommandedActivities, CommandedTimers;
    assert h' == h + h'[|h|..];
    RecordedConcat(h, h'[|h|..]);
    LoadLeavesUnstarted(NewExec(), h');
    EventsAfterCut(h', 0, |h|);
    LoadConcat(NewExec(), h, h'[|h|..]);
    LoadersAgreeOnObservables(ResetRoundOutput(c), FullLoad(h), h'[|h|..]);
    var rec := FullLoad(h').scheduledTimers;
    assert forall i :: 0 <= i < |TimerCalls(p, c.position)| ==> rec[i].timerId == i + 1;
  }

  lemma OvertakenMeets(p: Program, c: Exec, h: seq<HistoryEvent>, h': seq<HistoryEvent>, xs: seq<ScheduledActivity>, ys: seq<ScheduledTimer>)
    requires Caches(p, c, h) && Overtakes(c, h, h', xs, ys) && Answers(p, FullLoad(h'), c.position)
    ensures var s, r := StickyLoad(c, h', |h|), Run(p, FullLoad(h'), |c.position|);
      Aligned(s, r, xs != [], ys != []) && s.newCommands == [] && s.phase == Live
  {
    hide ActivityCalls, TimerCalls, CommandsFrom, LoadHistory, LoadNewEvents, Answers, CommandedActivities, CommandedTimers, Overtakes;
    OvertakenLoad(p, c, h, h', xs, ys);
    TailLoadFrame(ResetRoundOutput(c), EventsAfter(h', |h|));
    ReplayFollows(p, FullLoad(h'), c.position);
    NothingToReport(p, c.position);
  }

  // -------------------------------------------------------------------- lock-step

  /** The two rounds agree; `b` may remember activities (`xa`) or timers (`xt`) that
      `a` has not come to yet. */
  ghost predicate Aligned(a: Exec, b: Exec, xa: bool, xt: bool)
  {
    && SameRound(a, b) && Beyond(a)
    && (!xa ==> |b.scheduledActivities| <= b.nextActivityIdx)
    && (!xt ==> |b.scheduledTimers| <= b.nextTimerIdx)
  }

  lemma {:induction false} Commanded(cmds: seq<Command>, c: Command)
    ensures CommandedActivities(cmds + [c]) == CommandedActivities(cmds) +
      if c.ScheduleActivityTask? then [ScheduledActivity(c.activity.activityId, c.activity.activityType)] else []
    ensures CommandedTimers(cmds + [c]) == CommandedTimers(cmds) +
      if c.StartTimer? then [ScheduledTimer(c.timerId, c.duration)] else []
  {
    assert (cmds + [c])[..|cmds|] == cmds;
  }

  /** What one engine call does to the commands of a coroutine beyond its record. */
  lemma CallCommands(p: Program, a: Exec)
    requires Beyond(a)
    ensures Beyond(Advance(p, a)) && (a.phase != Panicked ==> Advance(p, a).phase != Panicked)
    ensures var op, r := p(a.position), Advance(p, a);
      && CommandedActivities(r.newCommands) == CommandedActivities(a.newCommands) +
         (if op.Schedule? && !Halted(p, a) then [ScheduledActivity(a.nextActivityIdx + 1, op.activityType)] else [])
      && CommandedTimers(r.newCommands) == CommandedTimers(a.newCommands) +
         (if op.NewTimer? && !Halted(p, a) then [ScheduledTimer(a.nextTimerIdx + 1, op.duration)] else [])
      && r.nextActivityIdx == a.nextActivityIdx + (if op.Schedule? && !Halted(p, a) then 1 else 0)
      && r.nextTimerIdx == a.nextTimerIdx + (if op.NewTimer? && !Halted(p, a) then 1 else 0)
  {
    hide CommandedActivities, CommandedTimers;
    match p(a.position) {
      case Schedule(t, input, o) => Commanded(a.newCommands, ActivityCommandOf(a.nextActivityIdx + 1, t, input, o));
      case NewTimer(d) => Commanded(a.newCommands, StartTimer(a.nextTimerIdx + 1, d));
      case Return(r) => Commanded(a.newCommands, CompleteWorkflowExecution(r));
      case Throw(f) => Commanded(a.newCommands, FailWorkflowExecution(f));
      case ContinueAs(k) => Commanded(a.newCommands, ContinueAsNewWorkflowExecution(k));
      case _ =>
    }
  }

  /** The rounds stay together through a call that is not one `b` remembers. */
  lemma {:induction false} AlignedCall(p: Program, a: Exec, b: Exec, xa: bool, xt: bool)
    requires Aligned(a, b, xa, xt)
    requires xa && !Halted(p, a) ==> !p(a.position).Schedule?
    requires xt && !Halted(p, a) ==> !p(a.position).NewTimer?
    ensures Aligned(Advance(p, a), Advance(p, b), xa, xt)
  {
    assert Halted(p, a) == Halted(p, b);
    match p(a.position) {
      case Schedule(t, input, o) =>
        if !Halted(p, a) { assert SameRound(ScheduleActivity(a, t, input, o), ScheduleActivity(b, t, input, o)); }
      case NewTimer(d) =>
        if !Halted(p, a) { assert SameRound(ScheduleTimer(a, d), ScheduleTimer(b, d)); }
      case _ =>
    }
  }

  lemma {:induction false} AlignedRun(p: Program, a: Exec, b: Exec, xa: bool, xt: bool, n: nat)
    requires Aligned(a, b, xa, xt)
    requires xa ==> !CommandsActivity(p, a)
    requires xt ==> !CommandsTimer(p, a)
    ensures Aligned(Run(p, a, n), Run(p, b, n), xa, xt)
  {
    hide Advance, Halted, CommandedActivities, CommandedTimers;
    if n > 0 {
      AlignedRun(p, a, b, xa, xt, n - 1);
      var r := Run(p, a, n - 1);
      CallCommands(p, r);
      assert Run(p, a, n) == Advance(p, r);
      if xa { assert CommandedActivities(Run(p, a, n).newCommands) == []; }
      if xt { assert CommandedTimers(Run(p, a, n).newCommands) == []; }
      AlignedCall(p, r, Run(p, b, n - 1), xa, xt);
    }
  }

  // ------------------------------------------------------------- where they differ

  /** The resumed coroutine numbers its new calls from its own counters. */
  lemma {:induction false} ResumedCountsOn(p: Program, s: Exec, n: nat)
    requires Beyond(s) && s.newCommands == [] && s.phase == Live
    ensures var r := Run(p, s, n);
      && Beyond(r) && r.phase != Panicked
      && r.nextActivityIdx == s.nextActivityIdx + |CommandedActivities(r.newCommands)|
      && r.nextTimerIdx == s.nextTimerIdx + |CommandedTimers(r.newCommands)|
      && (CommandedActivities(r.newCommands) != [] ==> CommandedActivities(r.newCommands)[0].activityId == s.nextActivityIdx + 1)
      && (CommandedTimers(r.newCommands) != [] ==> CommandedTimers(r.newCommands)[0].timerId == s.nextTimerIdx + 1)
  {
    if n == 0 {
    } else {
      hide Advance, Halted, Beyond;
      ResumedCountsOn(p, s, n - 1);
      CallCommands(p, Run(p, s, n - 1));
    }
  }

  /** Replay numbers its new calls from the record, which includes the others'. */
  lemma ReplayCountsOn(p: Program, h: seq<HistoryEvent>, n: nat)
    requires Run(p, FullLoad(h), n).phase != Panicked
    ensures CountsOn(h, Run(p, FullLoad(h), n).newCommands)
  {
    hide FullLoad, CountsOn;
    var r := Run(p, FullLoad(h), n);
    if r.phase == Live {
      LiveCountsOn(p, h, n);
    } else {
      assert Settles(p, FullLoad(h), r);
      RoundCountsOn(p, h, r);
    }
  }

  lemma CountersMeet(p: Program, c: Exec, h: seq<HistoryEvent>, h': seq<HistoryEvent>, xs: seq<ScheduledActivity>, ys: seq<ScheduledTimer>)
    requires Caches(p, c, h) && Overtakes(c, h, h', xs, ys)
    ensures var s := StickyLoad(c, h', |h|);
      && |RecordedActivities(h')| == s.nextActivityIdx + |xs| && |RecordedTimers(h')| == s.nextTimerIdx + |ys|
  {
    hide ActivityCalls, TimerCalls, LoadHistory, LoadNewEvents, Answers, CommandedActivities, CommandedTimers, Overtakes, Compatible;
    OvertakenLoad(p, c, h, h', xs, ys);
    TailLoadFrame(ResetRoundOutput(c), EventsAfter(h', |h|));
  }

  /** If resuming agrees with replaying, the round comes to no call of a kind that was
      recorded from elsewhere: the two would number it differently. */
  lemma AgreementMeansNoCalls(p: Program, c: Exec, h: seq<HistoryEvent>, h': seq<HistoryEvent>, xs: seq<ScheduledActivity>, ys: seq<ScheduledTimer>, n: nat)
    requires Caches(p, c, h) && Overtakes(c, h, h', xs, ys) && Answers(p, FullLoad(h'), c.position)
    requires ResumesAsReplay(p, c, h, h')
    ensures var cmds := Run(p, StickyLoad(c, h', |h|), n).newCommands;
      && (xs == [] || CommandedActivities(cmds) == []) && (ys == [] || CommandedTimers(cmds) == [])
  {
    hide Caches, Overtakes, Answers, FullLoad, StickyLoad, Run, RecordedActivities, RecordedTimers, CommandedActivities, CommandedTimers, Beyond;
    var s, k := StickyLoad(c, h', |h|), |c.position|;
    OvertakenMeets(p, c, h, h', xs, ys);
    CountersMeet(p, c, h, h', xs, ys);
    ResumedCountsOn(p, s, n);
    assert SameRound(Run(p, s, n), Run(p, FullLoad(h'), k + n));
    ReplayCountsOn(p, h', k + n);
  }

  // ----------------------------------------------------------- the exact condition

  /** For every program: resuming an overtaken entry agrees with replaying if and only
      if the longer history still answers what the coroutine was told, and the round
      makes no new call of a kind that was recorded from elsewhere. */
  lemma OvertakenIff(p: Program, c: Exec, h: seq<HistoryEvent>, h': seq<HistoryEvent>, xs: seq<ScheduledActivity>, ys: seq<ScheduledTimer>)
    requires Caches(p, c, h) && Overtakes(c, h, h', xs, ys)
    ensures var s := StickyLoad(c, h', |h|);
      ResumesAsReplay(p, c, h, h') <==>
        && Answers(p, FullLoad(h'), c.position)
        && (xs == [] || !CommandsActivity(p, s)) && (ys == [] || !CommandsTimer(p, s))
  {
    hide Caches, Overtakes, Answers, Run, Aligned, CommandedActivities, CommandedTimers, LoadHistory, LoadNewEvents;
    var s, e, k := StickyLoad(c, h', |h|), FullLoad(h'), |c.position|;
    if ResumesAsReplay(p, c, h, h') {
      AgreementAnswers(p, c, h, h', xs, ys);
      forall n: nat ensures (xs == [] || CommandedActivities(Run(p, s, n).newCommands) == [])
                         && (ys == [] || CommandedTimers(Run(p, s, n).newCommands) == []) {
        AgreementMeansNoCalls(p, c, h, h', xs, ys, n);
      }
    }
    if Answers(p, e, c.position) && (xs == [] || !CommandsActivity(p, s)) && (ys == [] || !CommandsTimer(p, s)) {
      OvertakenMeets(p, c, h, h', xs, ys);
      forall n: nat ensures SameRound(Run(p, s, n), Run(p, e, k + n)) {
        AlignedRun(p, s, Run(p, e, k), xs != [], ys != [], n);
        RunSplits(p, e, k, n);
        AlignedAgree(Run(p, s, n), Run(p, e, k + n), xs != [], ys != []);
      }
    }
  }

  lemma AlignedAgree(a: Exec, b: Exec, xa: bool, xt: bool)
    requires Aligned(a, b, xa, xt)
    ensures SameRound(a, b)
  {
  }

  lemma AgreementAnswers(p: Program, c: Exec, h: seq<HistoryEvent>, h': seq<HistoryEvent>, xs: seq<ScheduledActivity>, ys: seq<ScheduledTimer>)
    requires Caches(p, c, h) && Overtakes(c, h, h', xs, ys) && ResumesAsReplay(p, c, h, h')
    ensures Answers(p, FullLoad(h'), c.position)
  {
    hide Caches, Overtakes, Answers, Advance, LoadHistory, LoadNewEvents, Compatible, ActivityCalls, TimerCalls;
    OvertakenLoad(p, c, h, h', xs, ys);
    TailLoadFrame(ResetRoundOutput(c), EventsAfter(h', |h|));
    assert SameRound(Run(p, StickyLoad(c, h', |h|), 0), Run(p, FullLoad(h'), |c.position| + 0));
    ReplayReachesIff(p, FullLoad(h'), c.position);
  }

  // ------------------------------------------------------ whatever the round does

  /** The program that does `op` at `at` and is `p` everywhere else. */
  function Redirect(p: Program, at: seq<Observation>, op: Op): Program
  {
    pos => if pos == at then op else p(pos)
  }

  lemma {:induction false} RedirectAgrees(p: Program, at: seq<Observation>, op: Op, e: Exec, pos: seq<Observation>)
    requires pos <= at
    ensures var q := Redirect(p, at, op);
      && ActivityCalls(q, pos) == ActivityCalls(p, pos) && TimerCalls(q, pos) == TimerCalls(p, pos)
      && (Answers(q, e, pos) <==> Answers(p, e, pos))
  {
    if pos != [] { RedirectAgrees(p, at, op, e, pos[..|pos| - 1]); }
  }

  lemma RedirectCaches(p: Program, op: Op, c: Exec, h: seq<HistoryEvent>)
    requires Caches(p, c, h)
    ensures Caches(Redirect(p, c.position, op), c, h)
  {
    hide ActivityCalls, TimerCalls, Answers, CommandedActivities, CommandedTimers, LoadHistory, Redirect;
    RedirectAgrees(p, c.position, op, FullLoad(h), c.position);
  }

  /** A coroutine that schedules next commands an activity. */
  lemma SchedulingCommands(p: Program, s: Exec)
    requires Beyond(s) && s.phase == Live && s.newCommands == []
    ensures p(s.position).Schedule? ==> CommandsActivity(p, s)
    ensures p(s.position).NewTimer? ==> CommandsTimer(p, s)
  {
    CallCommands(p, s);
    assert Run(p, s, 1) == Advance(p, s);
    hide Advance;
    if p(s.position).Schedule? { assert CommandedActivities(Run(p, s, 1).newCommands) != []; }
    if p(s.position).NewTimer? { assert CommandedTimers(Run(p, s, 1).newCommands) != []; }
  }

  ghost predicate SafeWhatever(c: Exec, h: seq<HistoryEvent>, h': seq<HistoryEvent>)
  {
    forall q: Program :: Caches(q, c, h) && Answers(q, FullLoad(h'), c.position) ==> ResumesAsReplay(q, c, h, h')
  }

  /** Whatever the code goes on to do, an entry is safe exactly when nothing was
      recorded from elsewhere. */
  lemma SafeWhateverIff(p: Program, c: Exec, h: seq<HistoryEvent>, h': seq<HistoryEvent>, xs: seq<ScheduledActivity>, ys: seq<ScheduledTimer>)
    requires Caches(p, c, h) && Overtakes(c, h, h', xs, ys) && Answers(p, FullLoad(h'), c.position)
    ensures SafeWhatever(c, h, h') <==> xs == [] && ys == []
  {
    hide Caches, Overtakes, Answers, FullLoad, StickyLoad, ResumesAsReplay;
    if xs == [] && ys == [] {
      forall q: Program | Caches(q, c, h) && Answers(q, FullLoad(h'), c.position) ensures ResumesAsReplay(q, c, h, h') {
        OvertakenIff(q, c, h, h', xs, ys);
      }
    } else {
      var op := if xs != [] then Schedule("", Payload(""), ActivityOptions(None, 0, 0)) else NewTimer(0);
      RedirectedDisagrees(p, c, h, h', xs, ys, op);
    }
  }

  lemma RedirectedDisagrees(p: Program, c: Exec, h: seq<HistoryEvent>, h': seq<HistoryEvent>, xs: seq<ScheduledActivity>, ys: seq<ScheduledTimer>, op: Op)
    requires Caches(p, c, h) && Overtakes(c, h, h', xs, ys) && Answers(p, FullLoad(h'), c.position)
    requires (xs != [] && op.Schedule?) || (ys != [] && op.NewTimer?)
    ensures var q := Redirect(p, c.position, op);
      Caches(q, c, h) && Answers(q, FullLoad(h'), c.position) && !ResumesAsReplay(q, c, h, h')
  {
    hide Caches, Overtakes, Answers, FullLoad, ResumesAsReplay, LoadNewEvents, CommandsActivity, CommandsTimer, ActivityCalls, TimerCalls;
    var q, s := Redirect(p, c.position, op), StickyLoad(c, h', |h|);
    RedirectCaches(p, op, c, h);
    RedirectAgrees(p, c.position, op, FullLoad(h'), c.position);
    OvertakenMeets(q, c, h, h', xs, ys);
    TailLoadFrame(ResetRoundOutput(c), EventsAfter(h', |h|));
    SchedulingCommands(q, s);
    OvertakenIff(q, c, h, h', xs, ys);
  }

  // --------------------------------------------------------------- a failing input

  function TwoActivities(): Program
  {
    pos =>
      if |pos| == 0 then Schedule("a", Payload(""), ActivityOptions(None, 0, 0))
      else if |pos| == 1 then Await(1)
      else if |pos| == 2 then Schedule("b", Payload(""), ActivityOptions(None, 0, 0))
      else Await(2)
  }

  /** The first task, and what followed: its response, the outcome it waited for, and
      another worker's response. */
  function OvertakenHistory(): seq<HistoryEvent>
  {
    [HistoryEvent(1, 0, WorkflowTaskStarted), HistoryEvent(2, 0, WorkflowTaskCompleted),
     HistoryEvent(3, 0, ActivityTaskScheduled(ActivityCommand(1, "a", Payload(""), None, None, None))),
     HistoryEvent(4, 0, ActivityTaskCompleted(1, Payload("done"))), HistoryEvent(5, 0, WorkflowTaskCompleted),
     HistoryEvent(6, 0, ActivityTaskScheduled(ActivityCommand(2, "b", Payload(""), None, None, None)))]
  }

  lemma OvertakenFull()
    ensures var h := OvertakenHistory();
      && FullLoad(h[..1]) == NewExec()
      && FullLoad(h) == NewExec().(outcomes := map[1 := Resolved(Payload("done"))],
                                   scheduledActivities := [ScheduledActivity(1, "a"), ScheduledActivity(2, "b")])
  {
    var h := OvertakenHistory();
    var e0, e1, e2, e3, e4, e5 := NewExec(), FullLoad(h[..1]), FullLoad(h[..2]), FullLoad(h[..3]), FullLoad(h[..4]), FullLoad(h[..5]);
    assert h[..1][..0] == [] && h[..2][..1] == h[..1] && h[..3][..2] == h[..2] && h[..4][..3] == h[..3] && h[..5][..4] == h[..4];
    assert e1 == LoadEvent(FullLoad(h[..1][..0]), h[0]) == e0;
    assert e2 == LoadEvent(e1, h[1]) == e0;
    assert e3 == LoadEvent(e2, h[2]);
    assert e4 == LoadEvent(e3, h[3]);
    assert e5 == LoadEvent(e4, h[4]);
  }

  lemma OvertakenTail(r: Exec)
    requires r.outcomes == map[]
    ensures EventsAfter(OvertakenHistory(), 1) == OvertakenHistory()[1..]
    ensures LoadNewEvents(r, OvertakenHistory()[1..]) == r.(outcomes := map[1 := Resolved(Payload("done"))])
  {
    var t := OvertakenHistory()[1..];
    EventsAfterCut(OvertakenHistory(), 0, 1);
    assert t[..1][..0] == [] && t[..2][..1] == t[..1] && t[..3][..2] == t[..2] && t[..4][..3] == t[..3];
    var r1, r2, r3, r4 := LoadNewEvents(r, t[..1]), LoadNewEvents(r, t[..2]), LoadNewEvents(r, t[..3]), LoadNewEvents(r, t[..4]);
    assert r1 == LoadNewEvent(LoadNewEvents(r, t[..1][..0]), t[0]) == r;
    assert r2 == LoadNewEvent(r1, t[1]) == r;
    assert r3 == LoadNewEvent(r2, t[2]);
    assert r4 == LoadNewEvent(r3, t[3]) == r3;
  }

  /** LoadNewEvents does not look at recorded calls: a worker whose entry was overtaken
      schedules again what the other worker has scheduled, where a replay would not. */
  lemma OvertakenEntryRepeatsCommands()
    ensures var p, h := TwoActivities(), OvertakenHistory();
      var c := Run(p, FullLoad(h[..1]), 1);
      && Halted(p, c) && Caches(p, c, h[..1])
      && Run(p, StickyLoad(c, h, 1), 2).newCommands == [ActivityCommandOf(2, "b", Payload(""), ActivityOptions(None, 0, 0))]
      && Run(p, FullLoad(h), 3).newCommands == []
  {
    hide LoadHistory, LoadNewEvents, EventsAfter, Caches;
    OvertakenFull();
    var p, h := TwoActivities(), OvertakenHistory();
    var c, e := Run(p, FullLoad(h[..1]), 1), FullLoad(h);
    assert c == Advance(p, NewExec());
    OvertakenTail(ResetRoundOutput(c));
    ReplayCaches(p, h[..1], 1);
    var s := StickyLoad(c, h, 1);
    assert Run(p, s, 1) == Advance(p, s);
    assert Run(p, s, 2) == Advance(p, Run(p, s, 1));
    assert Run(p, e, 1) == Advance(p, e);
    assert Run(p, e, 2) == Advance(p, Run(p, e, 1));
  }
}
