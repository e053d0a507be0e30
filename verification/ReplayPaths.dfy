/** When a history can be replayed without a NonDeterministicError, and what keeps
    it that way as the history grows. */
module ReplayPaths {
  import opened Events
  import opened Replayer
  import opened StickyReplay

  /** The event was recorded by an accepted workflow task response. */
  predicate FromResponse(a: Attributes)
  {
    || a.WorkflowTaskCompleted? || a.ActivityTaskScheduled? || a.TimerStarted?
    || a.WorkflowExecutionCompleted? || a.WorkflowExecutionFailed? || a.WorkflowExecutionContinuedAsNew?
  }

  /** `d` contains everything that accepted responses have recorded in `h`. */
  ghost predicate HasAllResponses(d: seq<HistoryEvent>, h: seq<HistoryEvent>)
  {
    d <= h && forall i :: |d| <= i < |h| ==> !FromResponse(h[i].attributes)
  }

  /** The program observes activity outcomes and timer firings only. */
  ghost predicate OutcomeDriven(p: Program)
  {
    forall pos :: !p(pos).ReadClock? && !p(pos).ReadCancel?
  }

  /** `q` is a position of the program, reached from an earlier state of the
      history, whose calls are those the whole history records. */
  ghost predicate RecordedPath(p: Program, h: seq<HistoryEvent>, k: nat, q: seq<Observation>)
  {
    && k <= |h| && Answers(p, FullLoad(h[..k]), q)
    && ActivityCalls(p, q) == RecordedActivities(h) && TimerCalls(p, q) == RecordedTimers(h)
    && (k == 0 || exists i :: k <= i < |h| && FromResponse(h[i].attributes))
  }

  ghost predicate Replayable(p: Program, h: seq<HistoryEvent>)
  {
    exists k: nat, q :: RecordedPath(p, h, k, q)
  }

  // --------------------------------------------------- histories grow by events

  lemma {:induction false} QuietTail(a: seq<HistoryEvent>, b: seq<HistoryEvent>)
    requires HasAllResponses(a, b)
    ensures RecordedActivities(b) == RecordedActivities(a) && RecordedTimers(b) == RecordedTimers(a)
    decreases |b|
  {
    if |a| < |b| {
      var pre := b[..|b| - 1];
      QuietTail(a, pre);
      assert b == pre + [b[|b| - 1]];
      RecordedConcat(pre, [b[|b| - 1]]);
      LoadEventRecords(NewExec(), b[|b| - 1]);
      assert [b[|b| - 1]][..0] == [];
    } else {
      assert a == b;
    }
  }

  /** Events that are not responses keep a history replayable. */
  lemma ReplayableGrows(p: Program, a: seq<HistoryEvent>, b: seq<HistoryEvent>)
    requires Replayable(p, a) && HasAllResponses(a, b)
    ensures Replayable(p, b)
  {
    hide Answers, FullLoad, ActivityCalls, TimerCalls, RecordedActivities, RecordedTimers;
    var k: nat, q :| RecordedPath(p, a, k, q);
    QuietTail(a, b);
    assert a[..k] == b[..k];
    if k > 0 {
      var i :| k <= i < |a| && FromResponse(a[i].attributes);
      assert FromResponse(b[i].attributes);
    }
    assert RecordedPath(p, b, k, q);
  }

  lemma EmptyReplayable(p: Program)
    ensures Replayable(p, [])
  {
    assert RecordedPath(p, [], 0, []);
  }

  lemma {:induction false} OutcomeDrivenAnswers(p: Program, e: Exec, pos: seq<Observation>)
    requires OutcomeDriven(p) && Answers(p, e, pos)
    ensures OutcomesOnly(pos)
  {
    if pos != [] { OutcomeDrivenAnswers(p, e, pos[..|pos| - 1]); }
  }

  /** Any later history that has all the responses still answers the path. */
  lemma PathPersists(p: Program, h: seq<HistoryEvent>, d: seq<HistoryEvent>, k: nat, q: seq<Observation>)
    requires OutcomeDriven(p) && RecordedPath(p, h, k, q) && HasAllResponses(d, h) && UniqueOutcomes(h)
    ensures Answers(p, FullLoad(d), q)
    ensures ActivityCalls(p, q) == RecordedActivities(d) && TimerCalls(p, q) == RecordedTimers(d)
  {
    hide Answers, FullLoad, ActivityCalls, TimerCalls, RecordedActivities, RecordedTimers;
    QuietTail(d, h);
    assert k <= |d|;
    assert h[..k] <= d;
    assert UniqueOutcomes(d);
    OutcomesPersist(h[..k], d);
    OutcomeDrivenAnswers(p, FullLoad(h[..k]), q);
    AnswersPersist(p, FullLoad(h[..k]), FullLoad(d), q);
  }

  // ------------------------------------------------------------ what replay does

  /** The history's record is the calls of a path its own state answers. */
  ghost predicate Follows(p: Program, d: seq<HistoryEvent>, q: seq<Observation>)
  {
    && Answers(p, FullLoad(d), q)
    && ActivityCalls(p, q) == RecordedActivities(d) && TimerCalls(p, q) == RecordedTimers(d)
  }

  lemma FollowedReplay(p: Program, d: seq<HistoryEvent>, q: seq<Observation>)
    requires Follows(p, d, q)
    ensures Unstarted(FullLoad(d)) && Run(p, FullLoad(d), |q|) == At(p, FullLoad(d), q)
    ensures Beyond(Run(p, FullLoad(d), |q|)) && Run(p, FullLoad(d), |q|).phase == Live
  {
    hide Answers, LoadHistory, ActivityCalls, TimerCalls, CommandsFrom;
    LoadLeavesUnstarted(NewExec(), d);
    CallIds(p, q);
    ReplayFollows(p, FullLoad(d), q);
  }

  /** Replay of such a history never raises NonDeterministicError. */
  lemma ReplayNeverPanics(p: Program, d: seq<HistoryEvent>, q: seq<Observation>, n: nat)
    requires Follows(p, d, q)
    ensures Run(p, FullLoad(d), n).phase != Panicked
  {
    hide Follows, Beyond, Advance, FullLoad;
    FollowedReplay(p, d, q);
    var e := FullLoad(d);
    if n < |q| {
      if Run(p, e, n).phase == Panicked { HaltedStays(p, e, n, |q|); }
    } else {
      LockStep(p, Run(p, e, |q|), Run(p, e, |q|), n - |q|);
      RunSplits(p, e, |q|, n - |q|);
    }
  }

  /** A done coroutine was at work one engine call before. */
  lemma {:induction false} LastCall(p: Program, e: Exec, n: nat) returns (m: nat)
    requires e.phase == Live && Run(p, e, n).phase == Finished
    ensures m < n && Run(p, e, m).phase == Live && Run(p, e, n) == Advance(p, Run(p, e, m))
  {
    if Run(p, e, n - 1).phase == Live { m := n - 1; } else { m := LastCall(p, e, n - 1); }
  }

  /** Only ending the workflow finishes a coroutine, and that schedules nothing. */
  lemma FinishingCall(p: Program, e: Exec) returns (c: Command)
    requires e.phase == Live && Advance(p, e).phase == Finished
    ensures Advance(p, e).position == e.position && Advance(p, e).newCommands == e.newCommands + [c]
    ensures !c.ScheduleActivityTask? && !c.StartTimer?
  {
    c := Advance(p, e).newCommands[|e.newCommands|];
  }

  lemma FinishSchedulesNothing(p: Program, e: Exec)
    requires e.phase == Live && Advance(p, e).phase == Finished
    ensures Advance(p, e).position == e.position
    ensures CommandedActivities(Advance(p, e).newCommands) == CommandedActivities(e.newCommands)
    ensures CommandedTimers(Advance(p, e).newCommands) == CommandedTimers(e.newCommands)
  {
    hide Advance;
    var c := FinishingCall(p, e);
    var cmds := e.newCommands + [c];
    assert cmds[..|cmds| - 1] == e.newCommands;
  }

  /** A round's commands continue the record with the calls the program makes next. */
  lemma RoundExtendsRecord(p: Program, d: seq<HistoryEvent>, q: seq<Observation>, r: Exec)
    requires Follows(p, d, q) && Settles(p, FullLoad(d), r) && r.phase != Panicked
    ensures Answers(p, FullLoad(d), r.position)
    ensures ActivityCalls(p, r.position) == RecordedActivities(d) + CommandedActivities(r.newCommands)
    ensures TimerCalls(p, r.position) == RecordedTimers(d) + CommandedTimers(r.newCommands)
  {
    hide Follows, Beyond, Advance, FullLoad, CommandedActivities, CommandedTimers;
    var e := FullLoad(d);
    var n: nat :| r == Run(p, e, n) && Halted(p, r);
    FollowedReplay(p, d, q);
    if n < |q| { HaltedStays(p, e, n, |q|); n := |q|; }
    if r.phase == Live {
      LiveRoundExtends(p, d, q, n);
    } else {
      var m := LastCall(p, e, n);
      if m < |q| { HaltedStays(p, e, m + 1, |q|); }
      LiveRoundExtends(p, d, q, m);
      FinishSchedulesNothing(p, Run(p, e, m));
    }
  }

  lemma {:induction false} CallsGrow(p: Program, q: seq<Observation>, pos: seq<Observation>)
    requires q <= pos
    ensures ActivityCalls(p, q) <= ActivityCalls(p, pos) && TimerCalls(p, q) <= TimerCalls(p, pos)
    decreases |pos|
  {
    if |q| < |pos| { CallsGrow(p, q, pos[..|pos| - 1]); } else { assert q == pos; }
  }

  lemma AdvanceGrowsPosition(p: Program, e: Exec)
    ensures e.position <= Advance(p, e).position
  {
  }

  lemma {:induction false} PositionGrows(p: Program, e: Exec, n: nat)
    ensures e.position <= Run(p, e, n).position
  {
    hide Advance;
    if n > 0 {
      PositionGrows(p, e, n - 1);
      AdvanceGrowsPosition(p, Run(p, e, n - 1));
    }
  }

  lemma LiveRoundExtends(p: Program, d: seq<HistoryEvent>, q: seq<Observation>, n: nat)
    requires Follows(p, d, q) && |q| <= n && Run(p, FullLoad(d), n).phase == Live
    ensures var r := Run(p, FullLoad(d), n);
      && Answers(p, FullLoad(d), r.position)
      && ActivityCalls(p, r.position) == RecordedActivities(d) + CommandedActivities(r.newCommands)
      && TimerCalls(p, r.position) == RecordedTimers(d) + CommandedTimers(r.newCommands)
  {
    hide Advance, LoadHistory, ActivityCalls, TimerCalls, CommandsFrom, CommandedActivities, CommandedTimers, Answers;
    var e := FullLoad(d);
    FollowedReplay(p, d, q);
    RunSplits(p, e, |q|, n - |q|);
    PositionGrows(p, Run(p, e, |q|), n - |q|);
    ReplayAnswers(p, e, n);
    var pos := Run(p, e, n).position;
    CallsGrow(p, q, pos);
    CommandsAreCalls(p, pos, |RecordedActivities(d)|, |RecordedTimers(d)|);
  }

  // ------------------------------------------------------- keeping it replayable

  /** Recording the commands of a round that had seen every earlier response keeps
      the history replayable. */
  lemma ResponseKeepsReplayable(p: Program, h: seq<HistoryEvent>, d: seq<HistoryEvent>, r: Exec, h': seq<HistoryEvent>)
    requires OutcomeDriven(p) && Replayable(p, h) && UniqueOutcomes(h) && HasAllResponses(d, h)
    requires Settles(p, FullLoad(d), r) && r.phase != Panicked
    requires h <= h' && |h| < |h'| && FromResponse(h'[|h|].attributes) && RecordsExactly(h'[|h|..], r.newCommands)
    ensures Replayable(p, h')
  {
    hide Answers, FullLoad, ActivityCalls, TimerCalls, RecordedActivities, RecordedTimers, Settles,
      CommandedActivities, CommandedTimers;
    var k: nat, q :| RecordedPath(p, h, k, q);
    PathPersists(p, h, d, k, q);
    RoundExtendsRecord(p, d, q, r);
    QuietTail(d, h);
    assert h' == h + h'[|h|..];
    RecordedConcat(h, h'[|h|..]);
    assert h'[..|d|] == d;
    assert RecordedPath(p, h', |d|, r.position);
  }

  /** The recorded activity ids are 1, 2, 3, ... in the order the program scheduled
      them, likewise the timer ids, and no replay ever panics. */
  ghost predicate ReplaysCleanly(p: Program, h: seq<HistoryEvent>)
  {
    && NumberedInOrder(h)
    && (exists q :: Follows(p, h, q))
    && (forall n: nat :: Run(p, FullLoad(h), n).phase != Panicked)
  }

  ghost predicate NumberedInOrder(h: seq<HistoryEvent>)
  {
    && (forall i :: 0 <= i < |RecordedActivities(h)| ==> RecordedActivities(h)[i].activityId == i + 1)
    && (forall i :: 0 <= i < |RecordedTimers(h)| ==> RecordedTimers(h)[i].timerId == i + 1)
  }

  lemma ReplayableIsNumbered(p: Program, h: seq<HistoryEvent>)
    requires Replayable(p, h)
    ensures NumberedInOrder(h)
  {
    hide Answers, FullLoad, ActivityCalls, TimerCalls, RecordedActivities, RecordedTimers;
    var k: nat, q :| RecordedPath(p, h, k, q);
    CallIds(p, q);
  }

  lemma ReplayableIsClean(p: Program, h: seq<HistoryEvent>)
    requires OutcomeDriven(p) && Replayable(p, h) && UniqueOutcomes(h)
    ensures ReplaysCleanly(p, h)
  {
    hide Answers, FullLoad, ActivityCalls, TimerCalls, RecordedActivities, RecordedTimers, NumberedInOrder, Run;
    ReplayableIsNumbered(p, h);
    var k: nat, q :| RecordedPath(p, h, k, q);
    PathPersists(p, h, h, k, q);
    assert Follows(p, h, q);
    forall n: nat ensures Run(p, FullLoad(h), n).phase != Panicked { ReplayNeverPanics(p, h, q, n); }
  }

  // ------------------------------------------------------- exactly when replay works

  /** The call the program makes at `pos`, if it makes one that the history records,
      is the recorded one: same id and type for an activity, same id for a timer. */
  ghost predicate CallMatches(p: Program, e: Exec, pos: seq<Observation>)
  {
    var a, t := |ActivityCalls(p, pos)|, |TimerCalls(p, pos)|;
    match p(pos)
    case Schedule(ty, _, _) => a < |e.scheduledActivities| ==> e.scheduledActivities[a] == ScheduledActivity(a + 1, ty)
    case NewTimer(_) => t < |e.scheduledTimers| ==> e.scheduledTimers[t].timerId == t + 1
    case _ => true
  }

  /** At every position the loaded state leads the program to, its next call matches. */
  ghost predicate MatchesRecord(p: Program, e: Exec)
  {
    forall pos :: Answers(p, e, pos) ==> CallMatches(p, e, pos)
  }

  ghost predicate NeverPanics(p: Program, e: Exec)
  {
    forall n: nat :: Run(p, e, n).phase != Panicked
  }

  lemma {:induction false} PanicsOnlyOnMismatch(p: Program, e: Exec, pos: seq<Observation>)
    requires e.phase == Live
    ensures Advance(p, At(p, e, pos)).phase == Panicked <==> !CallMatches(p, e, pos)
  {
    hide ActivityCalls, TimerCalls, CommandsFrom;
  }

  lemma {:induction false} MatchingNeverPanics(p: Program, e: Exec, n: nat)
    requires Unstarted(e) && MatchesRecord(p, e)
    ensures Run(p, e, n).phase != Panicked
  {
    hide Advance, CallMatches, At, Answers, Compatible;
    if n > 0 {
      MatchingNeverPanics(p, e, n - 1);
      ReplayAnswers(p, e, n - 1);
      var r := Run(p, e, n - 1);
      if r.phase == Live { PanicsOnlyOnMismatch(p, e, r.position); } else { DoneStays(p, r); }
    }
  }

  /** Where no replay panics, every answered path is compatible with the record. */
  lemma {:induction false} CompatibleUnlessPanic(p: Program, e: Exec, pos: seq<Observation>)
    requires Unstarted(e) && Answers(p, e, pos) && NeverPanics(p, e)
    ensures Compatible(p, e, pos)
  {
    hide Compatible, Advance, At;
    if pos == [] {
      AtStart(p, e);
    } else {
      var pre := pos[..|pos| - 1];
      CompatibleUnlessPanic(p, e, pre);
      ReplayFollows(p, e, pre);
      assert Run(p, e, |pos|) == Advance(p, At(p, e, pre));
      AdvanceAnswers(p, e, pre);
      AnsweredCallsGoOn(p, e, pre);
      assert pos == pre + [pos[|pos| - 1]];
    }
  }

  /** A call that gets an answer does not end the workflow. */
  lemma {:induction false} AnsweredCallsGoOn(p: Program, e: Exec, pos: seq<Observation>)
    requires e.phase == Live && Answer(p, e, pos).Some?
    ensures Advance(p, At(p, e, pos)).phase != Finished
  {
    hide ActivityCalls, TimerCalls, CommandsFrom;
  }

  /** For every program and every history: replay never raises NonDeterministicError if
      and only if every call the program makes on the way it is led matches the
      record. */
  lemma {:induction false} NeverPanicsIff(p: Program, h: seq<HistoryEvent>)
    ensures NeverPanics(p, FullLoad(h)) <==> MatchesRecord(p, FullLoad(h))
  {
    hide Advance, CallMatches, At, Compatible, Answers, LoadHistory;
    var e := FullLoad(h);
    LoadLeavesUnstarted(NewExec(), h);
    if MatchesRecord(p, e) {
      forall n: nat ensures Run(p, e, n).phase != Panicked { MatchingNeverPanics(p, e, n); }
    }
    if NeverPanics(p, e) {
      forall pos | Answers(p, e, pos) ensures CallMatches(p, e, pos) {
        CompatibleUnlessPanic(p, e, pos);
        ReplayFollows(p, e, pos);
        PanicsOnlyOnMismatch(p, e, pos);
        assert Run(p, e, |pos| + 1) == Advance(p, At(p, e, pos));
      }
    }
  }

  // ------------------------------------------------- why outcome-driven programs

  /** Reads the clock, then schedules an activity whose type depends on it. */
  function ClockReader(): Program
  {
    pos =>
      if pos == [] then ReadClock
      else if |pos| == 1 then
        Schedule(if pos[0] == ClockSeen(0) then "early" else "late", Payload(""), ActivityOptions(None, 0, 0))
      else Await(1)
  }

  /** Its run: a first task at time 0, the response to it, a second task at `now`. */
  function ClockHistory(now: int): seq<HistoryEvent>
  {
    [HistoryEvent(1, 0, WorkflowTaskStarted), HistoryEvent(2, 0, WorkflowTaskCompleted),
     HistoryEvent(3, 0, ActivityTaskScheduled(ActivityCommand(1, "early", Payload(""), None, None, None))),
     HistoryEvent(4, now, WorkflowTaskStarted)]
  }

  lemma ClockLoads(now: int)
    ensures FullLoad(ClockHistory(now)) == NewExec().(now := now, scheduledActivities := [ScheduledActivity(1, "early")])
    ensures FullLoad(ClockHistory(now)[..1]) == NewExec()
  {
    var h := ClockHistory(now);
    assert h[..3][..2] == h[..2] && h[..2][..1] == h[..1] && h[..1][..0] == [];
    var e0, e1, e2 := LoadHistory(NewExec(), h[..1][..0]), LoadHistory(NewExec(), h[..1]), LoadHistory(NewExec(), h[..2]);
    assert e1 == LoadEvent(e0, h[0]) == NewExec();
    assert e2 == LoadEvent(e1, h[1]) == NewExec();
    assert LoadHistory(NewExec(), h[..3]) == LoadEvent(e2, h[2]);
  }

  lemma EarlyCommand()
    ensures Run(ClockReader(), NewExec(), 2).newCommands == [ActivityCommandOf(1, "early", Payload(""), ActivityOptions(None, 0, 0))]
  {
    var p, d := ClockReader(), NewExec();
    assert Run(p, d, 1) == Advance(p, d) == d.(position := [ClockSeen(0)]);
  }

  lemma LaterReplay(now: int)
    ensures var e := NewExec().(now := now, scheduledActivities := [ScheduledActivity(1, "early")]);
      Run(ClockReader(), e, 2).phase != Panicked <==> now == 0
  {
    var p, e := ClockReader(), NewExec().(now := now, scheduledActivities := [ScheduledActivity(1, "early")]);
    assert Run(p, e, 1) == Advance(p, e) == e.(position := [ClockSeen(now)]);
  }

  /** Replay shows every read of the clock the latest task's time, so a program that
      branches on it replays without a NonDeterministicError exactly when that time
      tells it to do what it did before. */
  lemma ClockReaderReplays(now: int)
    ensures Run(ClockReader(), FullLoad(ClockHistory(0)[..1]), 2).newCommands ==
      [ActivityCommandOf(1, "early", Payload(""), ActivityOptions(None, 0, 0))]
    ensures Run(ClockReader(), FullLoad(ClockHistory(now)), 2).phase != Panicked <==> now == 0
  {
    hide LoadHistory, Run, ClockReader;
    ClockLoads(now);
    ClockLoads(0);
    EarlyCommand();
    LaterReplay(now);
  }
}
