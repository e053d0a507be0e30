/** Resuming a cached Execution with the tail of history agrees with replaying
    the whole of it. */
module StickyReplay {
  import opened Events
  import opened Replayer

  // ------------------------------------------------------- paths of a program

  /** The activities a program schedules on its way to `pos`, in call order. */
  function ActivityCalls(p: Program, pos: seq<Observation>): seq<ScheduledActivity>
  {
    if pos == [] then []
    else
      var pre := pos[..|pos| - 1];
      var calls := ActivityCalls(p, pre);
      match p(pre)
      case Schedule(t, _, _) => calls + [ScheduledActivity(|calls| + 1, t)]
      case _ => calls
  }

  function TimerCalls(p: Program, pos: seq<Observation>): seq<ScheduledTimer>
  {
    if pos == [] then []
    else
      var pre := pos[..|pos| - 1];
      var calls := TimerCalls(p, pre);
      match p(pre)
      case NewTimer(d) => calls + [ScheduledTimer(|calls| + 1, d)]
      case _ => calls
  }

  /** The command a schedule call asks for: its id, what the code gave, and no timeout
      where the code gave none. */
  function Requested(id: int, activityType: string, input: Payload, o: ActivityOptions): Command
  {
    ScheduleActivityTask(ActivityCommand(
      id, activityType, input, o.retryPolicy,
      if o.scheduleToStart > 0 then Some(o.scheduleToStart) else None,
      if o.startToClose > 0 then Some(o.startToClose) else None))
  }

  /** The commands for the calls on the way to `pos`, leaving out the first
      `activities` activity calls and the first `timers` timer calls. */
  function CommandsFrom(p: Program, pos: seq<Observation>, activities: nat, timers: nat): seq<Command>
  {
    if pos == [] then []
    else
      var pre := pos[..|pos| - 1];
      var cmds := CommandsFrom(p, pre, activities, timers);
      var a, t := |ActivityCalls(p, pre)|, |TimerCalls(p, pre)|;
      match p(pre)
      case Schedule(ty, input, o) => if a < activities then cmds else cmds + [Requested(a + 1, ty, input, o)]
      case NewTimer(d) => if t < timers then cmds else cmds + [StartTimer(t + 1, d)]
      case _ => cmds
  }

  /** What the state loaded into `e` tells the program at `pos`; nothing when the
      program blocks there or has ended. */
  function Answer(p: Program, e: Exec, pos: seq<Observation>): Option<Observation>
  {
    match p(pos)
    case Schedule(_, _, _) => Some(ActivityHandle(|ActivityCalls(p, pos)| + 1))
    case Await(id) => if id in e.outcomes then Some(OutcomeSeen(e.outcomes[id])) else None
    case NewTimer(_) => Some(TimerHandle(|TimerCalls(p, pos)| + 1))
    case AwaitTimer(id) => if id in e.firedTimers then Some(FiringSeen) else None
    case ReadClock => Some(ClockSeen(e.now))
    case ReadCancel => Some(CancelSeen(e.cancelRequested, e.cancelReason))
    case _ => None
  }

  /** Every observation on the way to `pos` is the one the state in `e` gives. */
  ghost predicate Answers(p: Program, e: Exec, pos: seq<Observation>)
  {
    pos == [] ||
    (Answers(p, e, pos[..|pos| - 1]) && Answer(p, e, pos[..|pos| - 1]) == Some(pos[|pos| - 1]))
  }

  /** Recorded and made calls agree where both exist, as far as replay compares
      them: activities by id and type, timers by id. */
  ghost predicate Compatible(p: Program, e: Exec, pos: seq<Observation>)
  {
    && (forall i :: 0 <= i < |e.scheduledActivities| && i < |ActivityCalls(p, pos)| ==>
          e.scheduledActivities[i] == ActivityCalls(p, pos)[i])
    && (forall i :: 0 <= i < |e.scheduledTimers| && i < |TimerCalls(p, pos)| ==>
          e.scheduledTimers[i].timerId == i + 1)
  }

  /** A freshly loaded Execution: history is in, no workflow code has run. */
  ghost predicate Unstarted(e: Exec)
  {
    && e.position == [] && e.phase == Live && e.nextActivityIdx == 0 && e.nextTimerIdx == 0
    && e.newCommands == [] && e.result == None && e.err == None && e.continuedAsNew == None
  }

  /** `e` moved to `pos`, with the counters and commands that go with it. */
  function At(p: Program, e: Exec, pos: seq<Observation>): Exec
  {
    e.(position := pos,
       nextActivityIdx := |ActivityCalls(p, pos)|,
       nextTimerIdx := |TimerCalls(p, pos)|,
       newCommands := CommandsFrom(p, pos, |e.scheduledActivities|, |e.scheduledTimers|))
  }

  // -------------------------------------------------------- what replay reaches

  lemma {:induction false} ActivityCallsUnfold(p: Program, pre: seq<Observation>, o: Observation)
    ensures ActivityCalls(p, pre + [o]) == ActivityCalls(p, pre) +
      if p(pre).Schedule? then [ScheduledActivity(|ActivityCalls(p, pre)| + 1, p(pre).activityType)] else []
  {
    var pos := pre + [o];
    assert pos[..|pos| - 1] == pre;
  }

  lemma {:induction false} TimerCallsUnfold(p: Program, pre: seq<Observation>, o: Observation)
    ensures TimerCalls(p, pre + [o]) == TimerCalls(p, pre) +
      if p(pre).NewTimer? then [ScheduledTimer(|TimerCalls(p, pre)| + 1, p(pre).duration)] else []
  {
    var pos := pre + [o];
    assert pos[..|pos| - 1] == pre;
  }

  lemma {:induction false} CommandsUnfold(p: Program, pre: seq<Observation>, o: Observation, a: nat, t: nat)
    ensures CommandsFrom(p, pre + [o], a, t) == CommandsFrom(p, pre, a, t) + match p(pre)
      case Schedule(ty, input, opts) =>
        if |ActivityCalls(p, pre)| < a then [] else [Requested(|ActivityCalls(p, pre)| + 1, ty, input, opts)]
      case NewTimer(d) => if |TimerCalls(p, pre)| < t then [] else [StartTimer(|TimerCalls(p, pre)| + 1, d)]
      case _ => []
  {
    assert (pre + [o])[..|pre + [o]| - 1] == pre;
  }

  /** One engine call moves replay along an answered path. */
  lemma {:induction false} AdvanceFollows(p: Program, e: Exec, pre: seq<Observation>, o: Observation)
    requires e.phase == Live && Answer(p, e, pre) == Some(o) && Compatible(p, e, pre + [o])
    ensures Advance(p, At(p, e, pre)) == At(p, e, pre + [o])
  {
    var r, s := At(p, e, pre), At(p, e, pre + [o]);
    ActivityCallsUnfold(p, pre, o);
    TimerCallsUnfold(p, pre, o);
    CommandsUnfold(p, pre, o, |e.scheduledActivities|, |e.scheduledTimers|);
    var a := |ActivityCalls(p, pre)|;
    assert p(pre).Schedule? && a < |e.scheduledActivities| ==>
      e.scheduledActivities[a] == ActivityCalls(p, pre + [o])[a];
  }

  /** Replay walks any path its loaded state answers, step for step. */
  lemma {:induction false} ReplayFollows(p: Program, e: Exec, pos: seq<Observation>)
    requires Unstarted(e) && Answers(p, e, pos) && Compatible(p, e, pos)
    ensures Run(p, e, |pos|) == At(p, e, pos)
  {
    hide Advance, Answer, At, Compatible;
    if pos == [] {
      AtStart(p, e);
    } else {
      var pre, o := pos[..|pos| - 1], pos[|pos| - 1];
      assert pos == pre + [o];
      CompatibleShrinks(p, e, pre, o);
      ReplayFollows(p, e, pre);
      AdvanceFollows(p, e, pre, o);
    }
  }

  lemma {:induction false} DoneStays(p: Program, e: Exec)
    requires e.phase != Live
    ensures Advance(p, e) == e
  {
  }

  lemma {:induction false} AtStart(p: Program, e: Exec)
    requires Unstarted(e)
    ensures At(p, e, []) == e && Compatible(p, e, [])
  {
  }

  lemma {:induction false} CompatibleShrinks(p: Program, e: Exec, pre: seq<Observation>, o: Observation)
    requires Compatible(p, e, pre + [o])
    ensures Compatible(p, e, pre)
  {
    ActivityCallsUnfold(p, pre, o);
    TimerCallsUnfold(p, pre, o);
  }

  /** Replay at `pos` either stays, ends, or moves on to an answered position. */
  lemma {:induction false} AdvanceAnswers(p: Program, e: Exec, pos: seq<Observation>)
    requires e.phase == Live && Compatible(p, e, pos)
    ensures var s := Advance(p, At(p, e, pos));
      match Answer(p, e, pos)
      case None => s.position == pos && (s.phase == Live ==> s == At(p, e, pos))
      case Some(o) =>
        if s.phase == Live then Compatible(p, e, pos + [o]) && s == At(p, e, pos + [o]) && s.position == pos + [o]
        else s.position == pos
  {
    match Answer(p, e, pos) {
      case None =>
      case Some(o) =>
        var s := Advance(p, At(p, e, pos));
        if s.phase == Live {
          ActivityCallsUnfold(p, pos, o);
          TimerCallsUnfold(p, pos, o);
          AdvanceFollows(p, e, pos, o);
        }
    }
  }

  /** Conversely, wherever replay stands, its state answers the path there. */
  lemma {:induction false} ReplayAnswers(p: Program, e: Exec, n: nat)
    requires Unstarted(e)
    ensures |Run(p, e, n).position| <= n && Answers(p, e, Run(p, e, n).position)
    ensures Run(p, e, n).phase == Live ==>
      Run(p, e, n) == At(p, e, Run(p, e, n).position) && Compatible(p, e, Run(p, e, n).position)
  {
    hide Advance, At, Compatible;
    if n == 0 {
      AtStart(p, e);
    } else {
      ReplayAnswers(p, e, n - 1);
      var pos := Run(p, e, n - 1).position;
      if Run(p, e, n - 1).phase != Live {
        DoneStays(p, Run(p, e, n - 1));
      } else {
        AdvanceAnswers(p, e, pos);
        var pos' := Run(p, e, n).position;
        if pos' != pos { assert pos'[..|pos'| - 1] == pos; }
      }
    }
  }

  /** Replay stands at `pos` after |pos| engine calls exactly when the loaded
      state answers `pos`. */
  lemma {:induction false} ReplayReachesIff(p: Program, e: Exec, pos: seq<Observation>)
    requires Unstarted(e) && Compatible(p, e, pos)
    ensures Run(p, e, |pos|).position == pos <==> Answers(p, e, pos)
  {
    ReplayAnswers(p, e, |pos|);
    if Answers(p, e, pos) { ReplayFollows(p, e, pos); }
  }

  // ----------------------------------------------------------- lock-step runs

  /** The coroutine is beyond every recorded call, so no call is checked again. */
  ghost predicate Beyond(e: Exec)
  {
    |e.scheduledActivities| <= e.nextActivityIdx && |e.scheduledTimers| <= e.nextTimerIdx
  }

  /** Two Executions that agree on the program's position, the call counters, the
      commands of this round, the terminal outcome and everything workflow code
      can observe; they may differ in which past calls they remember. */
  ghost predicate SameRound(a: Exec, b: Exec)
  {
    a == b.(scheduledActivities := a.scheduledActivities,
            scheduledTimers := a.scheduledTimers,
            pendingSignals := a.pendingSignals)
  }

  lemma {:induction false} AdvanceTogether(p: Program, a: Exec, b: Exec)
    requires SameRound(a, b) && Beyond(a) && Beyond(b)
    ensures SameRound(Advance(p, a), Advance(p, b))
    ensures Beyond(Advance(p, a)) && Beyond(Advance(p, b))
    ensures a.phase != Panicked ==> Advance(p, a).phase != Panicked
  {
    assert Halted(p, a) == Halted(p, b);
    match p(a.position) {
      case Schedule(t, input, o) =>
        assert SameRound(ScheduleActivity(a, t, input, o), ScheduleActivity(b, t, input, o));
      case NewTimer(d) =>
        assert SameRound(ScheduleTimer(a, d), ScheduleTimer(b, d));
      case _ =>
    }
  }

  lemma {:induction false} LockStep(p: Program, a: Exec, b: Exec, n: nat)
    requires SameRound(a, b) && Beyond(a) && Beyond(b)
    ensures SameRound(Run(p, a, n), Run(p, b, n))
    ensures Beyond(Run(p, a, n)) && Beyond(Run(p, b, n))
    ensures a.phase != Panicked ==> Run(p, a, n).phase != Panicked
  {
    if n > 0 {
      LockStep(p, a, b, n - 1);
      AdvanceTogether(p, Run(p, a, n - 1), Run(p, b, n - 1));
    }
  }

  lemma {:induction false} RunSplits(p: Program, e: Exec, m: nat, n: nat)
    ensures Run(p, e, m + n) == Run(p, Run(p, e, m), n)
  {
    hide Advance;
    if n > 0 { RunSplits(p, e, m, n - 1); }
  }

  /** A halted coroutine stays where it is, so a round has one result. */
  lemma {:induction false} HaltedStays(p: Program, e: Exec, m: nat, n: nat)
    requires m <= n && Halted(p, Run(p, e, m))
    ensures Run(p, e, n) == Run(p, e, m)
  {
    if m < n { HaltedStays(p, e, m, n - 1); }
  }

  lemma {:induction false} RoundResultUnique(p: Program, e: Exec, r: Exec, s: Exec)
    requires Settles(p, e, r) && Settles(p, e, s)
    ensures r == s
  {
    var m: nat :| r == Run(p, e, m) && Halted(p, r);
    var n: nat :| s == Run(p, e, n) && Halted(p, s);
    if m <= n { HaltedStays(p, e, m, n); } else { HaltedStays(p, e, n, m); }
  }

  // -------------------------------------------------------------- split loading

  /** What workflow code can learn from the loaded state. */
  ghost predicate SameObservables(a: Exec, b: Exec)
  {
    && a.outcomes == b.outcomes && a.firedTimers == b.firedTimers && a.now == b.now
    && a.cancelRequested == b.cancelRequested && a.cancelReason == b.cancelReason
  }

  /** The part of an Execution that both loaders maintain. */
  ghost predicate SameView(a: Exec, b: Exec)
  {
    SameObservables(a, b) && a.pendingSignals == b.pendingSignals
  }

  lemma {:induction false} LoadConcat(e: Exec, a: seq<HistoryEvent>, b: seq<HistoryEvent>)
    ensures LoadHistory(e, a + b) == LoadHistory(LoadHistory(e, a), b)
  {
    if b == [] {
      assert a + b == a;
    } else {
      LoadConcat(e, a, b[..|b| - 1]);
      assert (a + b)[..|a + b| - 1] == a + b[..|b| - 1];
    }
  }

  lemma {:induction false} LoadersAgree(a: Exec, b: Exec, events: seq<HistoryEvent>)
    requires SameView(a, b)
    ensures SameView(LoadNewEvents(a, events), LoadHistory(b, events))
  {
    hide LoadEvent, LoadNewEvent;
    if events != [] {
      var pre := events[..|events| - 1];
      LoadersAgree(a, b, pre);
      LoadEventAgrees(LoadNewEvents(a, pre), LoadHistory(b, pre), events[|events| - 1]);
    }
  }

  /** LoadHistory adds to LoadNewEvents only the memory of past calls. */
  lemma LoadEventObserves(b: Exec, ev: HistoryEvent)
    ensures SameView(LoadNewEvent(b, ev), LoadEvent(b, ev))
  {
  }

  ghost predicate Settling(a: Attributes)
  {
    a.ActivityTaskCompleted? || a.ActivityTaskFailed? || a.TimerFired?
  }

  /** Outcomes and firings are noted alike. */
  lemma SettlingAgrees(a: Exec, b: Exec, ev: HistoryEvent)
    requires SameObservables(a, b) && Settling(ev.attributes)
    ensures SameObservables(LoadNewEvent(a, ev), LoadNewEvent(b, ev))
    ensures LoadNewEvent(a, ev).pendingSignals == a.pendingSignals && LoadNewEvent(b, ev).pendingSignals == b.pendingSignals
  {
  }

  /** So are the clock, cancel requests and signals. */
  lemma OtherEventAgrees(a: Exec, b: Exec, ev: HistoryEvent)
    requires SameObservables(a, b) && !Settling(ev.attributes)
    ensures SameObservables(LoadNewEvent(a, ev), LoadNewEvent(b, ev))
    ensures a.pendingSignals == b.pendingSignals ==> LoadNewEvent(a, ev).pendingSignals == LoadNewEvent(b, ev).pendingSignals
  {
  }

  lemma LoadNewEventAgrees(a: Exec, b: Exec, ev: HistoryEvent)
    requires SameObservables(a, b)
    ensures SameObservables(LoadNewEvent(a, ev), LoadNewEvent(b, ev))
    ensures a.pendingSignals == b.pendingSignals ==> LoadNewEvent(a, ev).pendingSignals == LoadNewEvent(b, ev).pendingSignals
  {
    hide LoadNewEvent, SameObservables, Settling;
    if Settling(ev.attributes) { SettlingAgrees(a, b, ev); } else { OtherEventAgrees(a, b, ev); }
  }

  lemma {:induction false} LoadEventAgrees(a: Exec, b: Exec, ev: HistoryEvent)
    requires SameObservables(a, b)
    ensures SameObservables(LoadNewEvent(a, ev), LoadEvent(b, ev))
    ensures SameView(a, b) ==> SameView(LoadNewEvent(a, ev), LoadEvent(b, ev))
  {
    hide LoadEvent, LoadNewEvent;
    LoadEventObserves(b, ev);
    LoadNewEventAgrees(a, b, ev);
  }

  lemma {:induction false} LoadersAgreeOnObservables(a: Exec, b: Exec, events: seq<HistoryEvent>)
    requires SameObservables(a, b)
    ensures SameObservables(LoadNewEvents(a, events), LoadHistory(b, events))
  {
    hide LoadEvent, LoadNewEvent;
    if events != [] {
      var pre := events[..|events| - 1];
      LoadersAgreeOnObservables(a, b, pre);
      LoadEventAgrees(LoadNewEvents(a, pre), LoadHistory(b, pre), events[|events| - 1]);
    }
  }

  /** `EventsAfter` cuts a dense history exactly at the bookmark. */
  lemma {:induction false} EventsAfterCut(history: seq<HistoryEvent>, base: nat, cut: nat)
    requires forall i :: 0 <= i < |history| ==> history[i].eventId == base + i + 1
    requires base <= cut <= base + |history|
    ensures EventsAfter(history, cut) == history[cut - base..]
    decreases |history|
  {
    if history != [] && base < cut {
      EventsAfterCut(history[1..], base + 1, cut);
      assert history[1..][cut - base - 1..] == history[cut - base..];
    }
  }

  /** Loading a prefix in full and the rest as a tail shows workflow code the
      same outcomes, firings, clock, cancel request and signals as one load. */
  lemma {:induction false} SplitLoading(history: seq<HistoryEvent>, cut: nat)
    requires Dense(history) && cut <= |history|
    ensures SameView(LoadNewEvents(FullLoad(history[..cut]), EventsAfter(history, cut)), FullLoad(history))
  {
    EventsAfterCut(history, 0, cut);
    assert history == history[..cut] + history[cut..];
    LoadConcat(NewExec(), history[..cut], history[cut..]);
    LoadersAgree(FullLoad(history[..cut]), FullLoad(history[..cut]), history[cut..]);
  }

  lemma {:induction false} LoadLeavesUnstarted(e: Exec, events: seq<HistoryEvent>)
    requires Unstarted(e)
    ensures Unstarted(LoadHistory(e, events))
  {
    if events != [] { LoadLeavesUnstarted(e, events[..|events| - 1]); }
  }

  // --------------------------------------------------------- recorded commands

  function RecordedActivities(events: seq<HistoryEvent>): seq<ScheduledActivity>
  {
    LoadHistory(NewExec(), events).scheduledActivities
  }

  function RecordedTimers(events: seq<HistoryEvent>): seq<ScheduledTimer>
  {
    LoadHistory(NewExec(), events).scheduledTimers
  }

  function CommandedActivities(cmds: seq<Command>): seq<ScheduledActivity>
  {
    if cmds == [] then []
    else
      var c := cmds[|cmds| - 1];
      CommandedActivities(cmds[..|cmds| - 1]) +
      if c.ScheduleActivityTask? then [ScheduledActivity(c.activity.activityId, c.activity.activityType)] else []
  }

  function CommandedTimers(cmds: seq<Command>): seq<ScheduledTimer>
  {
    if cmds == [] then []
    else
      var c := cmds[|cmds| - 1];
      CommandedTimers(cmds[..|cmds| - 1]) + if c.StartTimer? then [ScheduledTimer(c.timerId, c.duration)] else []
  }

  /** The events record these commands' activities and timers and no others. */
  ghost predicate RecordsExactly(events: seq<HistoryEvent>, cmds: seq<Command>)
  {
    RecordedActivities(events) == CommandedActivities(cmds) && RecordedTimers(events) == CommandedTimers(cmds)
  }

  lemma {:induction false} LoadRecords(e: Exec, events: seq<HistoryEvent>)
    ensures LoadHistory(e, events).scheduledActivities == e.scheduledActivities + RecordedActivities(events)
    ensures LoadHistory(e, events).scheduledTimers == e.scheduledTimers + RecordedTimers(events)
  {
    if events != [] {
      var pre, ev := events[..|events| - 1], events[|events| - 1];
      LoadRecords(e, pre);
      LoadEventRecords(LoadHistory(e, pre), ev);
      LoadEventRecords(LoadHistory(NewExec(), pre), ev);
    }
  }

  lemma {:induction false} LoadEventRecords(e: Exec, ev: HistoryEvent)
    ensures LoadEvent(e, ev).scheduledActivities == e.scheduledActivities +
      if ev.attributes.ActivityTaskScheduled?
      then [ScheduledActivity(ev.attributes.activity.activityId, ev.attributes.activity.activityType)] else []
    ensures LoadEvent(e, ev).scheduledTimers == e.scheduledTimers +
      if ev.attributes.TimerStarted? then [ScheduledTimer(ev.attributes.timerId, ev.attributes.duration)] else []
  {
  }

  lemma {:induction false} RecordedConcat(a: seq<HistoryEvent>, b: seq<HistoryEvent>)
    ensures RecordedActivities(a + b) == RecordedActivities(a) + RecordedActivities(b)
    ensures RecordedTimers(a + b) == RecordedTimers(a) + RecordedTimers(b)
  {
    LoadConcat(NewExec(), a, b);
    LoadRecords(LoadHistory(NewExec(), a), b);
  }

  /** The commands of a path are the calls on it that were left in. */
  lemma {:induction false} CommandsAreCalls(p: Program, pos: seq<Observation>, a: nat, t: nat)
    ensures CommandedActivities(CommandsFrom(p, pos, a, t)) ==
      if |ActivityCalls(p, pos)| <= a then [] else ActivityCalls(p, pos)[a..]
    ensures CommandedTimers(CommandsFrom(p, pos, a, t)) ==
      if |TimerCalls(p, pos)| <= t then [] else TimerCalls(p, pos)[t..]
  {
    hide ActivityCalls, TimerCalls, CommandsFrom, CommandedActivities, CommandedTimers;
    if pos == [] {
      NoCallsYet(p, a, t);
    } else {
      var pre, o := pos[..|pos| - 1], pos[|pos| - 1];
      CommandsAreCalls(p, pre, a, t);
      assert pos == pre + [o];
      CommandIsCall(p, pre, o, a, t);
    }
  }

  lemma {:induction false} NoCallsYet(p: Program, a: nat, t: nat)
    ensures ActivityCalls(p, []) == [] && TimerCalls(p, []) == []
    ensures CommandedActivities(CommandsFrom(p, [], a, t)) == [] && CommandedTimers(CommandsFrom(p, [], a, t)) == []
  {
  }

  lemma {:induction false} CommandIsCall(p: Program, pre: seq<Observation>, o: Observation, a: nat, t: nat)
    ensures CommandedActivities(CommandsFrom(p, pre + [o], a, t)) == CommandedActivities(CommandsFrom(p, pre, a, t)) +
      if a <= |ActivityCalls(p, pre)| then ActivityCalls(p, pre + [o])[|ActivityCalls(p, pre)|..] else []
    ensures CommandedTimers(CommandsFrom(p, pre + [o], a, t)) == CommandedTimers(CommandsFrom(p, pre, a, t)) +
      if t <= |TimerCalls(p, pre)| then TimerCalls(p, pre + [o])[|TimerCalls(p, pre)|..] else []
    ensures ActivityCalls(p, pre) <= ActivityCalls(p, pre + [o]) && |ActivityCalls(p, pre + [o])| <= |ActivityCalls(p, pre)| + 1
    ensures TimerCalls(p, pre) <= TimerCalls(p, pre + [o]) && |TimerCalls(p, pre + [o])| <= |TimerCalls(p, pre)| + 1
  {
    hide ActivityCalls, TimerCalls, CommandsFrom;
    ActivityCallsUnfold(p, pre, o);
    TimerCallsUnfold(p, pre, o);
    CommandsUnfold(p, pre, o, a, t);
    var cmds, cmds' := CommandsFrom(p, pre, a, t), CommandsFrom(p, pre + [o], a, t);
    if cmds' != cmds { assert cmds'[..|cmds'| - 1] == cmds; }
  }

  lemma {:induction false} CallIds(p: Program, pos: seq<Observation>)
    ensures forall i :: 0 <= i < |ActivityCalls(p, pos)| ==> ActivityCalls(p, pos)[i].activityId == i + 1
    ensures forall i :: 0 <= i < |TimerCalls(p, pos)| ==> TimerCalls(p, pos)[i].timerId == i + 1
  {
    if pos != [] { CallIds(p, pos[..|pos| - 1]); }
  }

  // ------------------------------------------------- sticky resume = full replay

  /** `c` is an Execution that has seen exactly `h`, whose last round left its
      coroutine waiting, and whose calls so far are those `h` records followed by
      those of the commands it last returned. */
  ghost predicate Caches(p: Program, c: Exec, h: seq<HistoryEvent>)
  {
    && c.phase == Live && Beyond(c)
    && SameObservables(c, FullLoad(h))
    && Answers(p, FullLoad(h), c.position)
    && c.nextActivityIdx == |ActivityCalls(p, c.position)|
    && c.nextTimerIdx == |TimerCalls(p, c.position)|
    && ActivityCalls(p, c.position) == RecordedActivities(h) + CommandedActivities(c.newCommands)
    && |TimerCalls(p, c.position)| == |RecordedTimers(h)| + |CommandedTimers(c.newCommands)|
    && (forall i :: 0 <= i < |RecordedTimers(h)| ==> RecordedTimers(h)[i].timerId == i + 1)
    && (forall i :: 0 <= i < |CommandedTimers(c.newCommands)| ==>
          CommandedTimers(c.newCommands)[i].timerId == |RecordedTimers(h)| + i + 1)
  }

  /** Sticky resume and full replay agree, call for call, on every later state of
      the round. */
  ghost predicate ResumesAsReplay(p: Program, c: Exec, h: seq<HistoryEvent>, h': seq<HistoryEvent>)
  {
    forall n: nat ::
      SameRound(Run(p, StickyLoad(c, h', |h|), n), Run(p, FullLoad(h'), |c.position| + n))
  }

  lemma {:induction false} FullLoadOfExtension(p: Program, c: Exec, h: seq<HistoryEvent>, h': seq<HistoryEvent>)
    requires Dense(h') && h <= h' && Caches(p, c, h) && RecordsExactly(h'[|h|..], c.newCommands)
    ensures Unstarted(FullLoad(h')) && Compatible(p, FullLoad(h'), c.position)
    ensures FullLoad(h').scheduledActivities == ActivityCalls(p, c.position)
    ensures |FullLoad(h').scheduledTimers| == |TimerCalls(p, c.position)|
    ensures forall i :: 0 <= i < |FullLoad(h').scheduledTimers| ==> FullLoad(h').scheduledTimers[i].timerId == i + 1
    ensures StickyLoad(c, h', |h|) == LoadNewEvents(ResetRoundOutput(c), h'[|h|..])
    ensures SameObservables(StickyLoad(c, h', |h|), FullLoad(h'))
  {
    assert h' == h + h'[|h|..];
    RecordedConcat(h, h'[|h|..]);
    LoadLeavesUnstarted(NewExec(), h');
    EventsAfterCut(h', 0, |h|);
    LoadConcat(NewExec(), h, h'[|h|..]);
    LoadersAgreeOnObservables(ResetRoundOutput(c), FullLoad(h), h'[|h|..]);
  }

  /** Loading a tail touches only what workflow code may observe. */
  lemma {:induction false} TailLoadFrame(e: Exec, events: seq<HistoryEvent>)
    ensures LoadNewEvents(e, events) ==
      e.(now := LoadNewEvents(e, events).now, outcomes := LoadNewEvents(e, events).outcomes,
         firedTimers := LoadNewEvents(e, events).firedTimers,
         cancelRequested := LoadNewEvents(e, events).cancelRequested,
         cancelReason := LoadNewEvents(e, events).cancelReason,
         pendingSignals := LoadNewEvents(e, events).pendingSignals)
  {
    if events != [] { TailLoadFrame(e, events[..|events| - 1]); }
  }

  /** Where the longer history answers the cached position, replay passes through
      the very state the resumed coroutine starts from. */
  lemma {:induction false} ReplayMeetsCache(p: Program, c: Exec, h: seq<HistoryEvent>, h': seq<HistoryEvent>)
    requires Dense(h') && h <= h' && Caches(p, c, h) && RecordsExactly(h'[|h|..], c.newCommands)
    requires Answers(p, FullLoad(h'), c.position)
    ensures var s, r := StickyLoad(c, h', |h|), Run(p, FullLoad(h'), |c.position|);
      SameRound(s, r) && Beyond(s) && Beyond(r)
  {
    FullLoadOfExtension(p, c, h, h');
    TailLoadFrame(ResetRoundOutput(c), h'[|h|..]);
    ReplayFollows(p, FullLoad(h'), c.position);
    NothingToReport(p, c.position);
  }

  /** The exact condition: resuming agrees with replaying if and only if every
      observation the cached coroutine has made is the one the longer history
      still gives. */
  lemma {:induction false} StickyEqualsFullIff(p: Program, c: Exec, h: seq<HistoryEvent>, h': seq<HistoryEvent>)
    requires Dense(h') && h <= h' && Caches(p, c, h) && RecordsExactly(h'[|h|..], c.newCommands)
    ensures ResumesAsReplay(p, c, h, h') <==> Answers(p, FullLoad(h'), c.position)
  {
    hide Advance, Caches, Answers, Beyond;
    var e, s, k := FullLoad(h'), StickyLoad(c, h', |h|), |c.position|;
    FullLoadOfExtension(p, c, h, h');
    TailLoadFrame(ResetRoundOutput(c), h'[|h|..]);
    if ResumesAsReplay(p, c, h, h') {
      assert SameRound(Run(p, s, 0), Run(p, e, k + 0));
      ReplayReachesIff(p, e, c.position);
    }
    if Answers(p, e, c.position) {
      ReplayMeetsCache(p, c, h, h');
      forall n: nat ensures SameRound(Run(p, s, n), Run(p, e, k + n)) {
        LockStep(p, s, Run(p, e, k), n);
        RunSplits(p, e, k, n);
      }
    }
  }

  lemma {:induction false} NothingToReport(p: Program, pos: seq<Observation>)
    ensures forall a, t :: |ActivityCalls(p, pos)| <= a && |TimerCalls(p, pos)| <= t ==> CommandsFrom(p, pos, a, t) == []
  {
    if pos != [] { NothingToReport(p, pos[..|pos| - 1]); }
  }

  // --------------------------------------- when the condition is met for free

  /** No activity id has two outcomes in the history. */
  ghost predicate UniqueOutcomes(h: seq<HistoryEvent>)
  {
    forall i, j :: 0 <= i < j < |h| && OutcomeOf(h[i]).Some? && OutcomeOf(h[j]).Some? ==>
      OutcomeOf(h[i]).value != OutcomeOf(h[j]).value
  }

  function OutcomeOf(ev: HistoryEvent): Option<int>
  {
    match ev.attributes
    case ActivityTaskCompleted(id, _) => Some(id)
    case ActivityTaskFailed(id, _, _) => Some(id)
    case _ => None
  }

  /** The program has looked at nothing but activity outcomes and firings. */
  ghost predicate OutcomesOnly(pos: seq<Observation>)
  {
    forall i :: 0 <= i < |pos| ==> !pos[i].ClockSeen? && !pos[i].CancelSeen?
  }

  lemma {:induction false} OutcomesComeFromEvents(h: seq<HistoryEvent>)
    ensures forall id :: id in FullLoad(h).outcomes <==> exists i :: 0 <= i < |h| && OutcomeOf(h[i]) == Some(id)
  {
    if h != [] {
      var pre := h[..|h| - 1];
      OutcomesComeFromEvents(pre);
      forall id ensures id in FullLoad(h).outcomes <==> exists i :: 0 <= i < |h| && OutcomeOf(h[i]) == Some(id) {
        if id in FullLoad(pre).outcomes {
          var i :| 0 <= i < |pre| && OutcomeOf(pre[i]) == Some(id);
          assert OutcomeOf(h[i]) == Some(id);
        }
        if i :| 0 <= i < |h| && OutcomeOf(h[i]) == Some(id) {
          if i < |pre| { assert OutcomeOf(pre[i]) == Some(id); }
        }
      }
    }
  }

  /** With one outcome per activity, a longer history never changes its mind. */
  lemma {:induction false} OutcomesPersist(h: seq<HistoryEvent>, h': seq<HistoryEvent>)
    requires h <= h' && UniqueOutcomes(h')
    ensures forall id :: id in FullLoad(h).outcomes ==>
      id in FullLoad(h').outcomes && FullLoad(h').outcomes[id] == FullLoad(h).outcomes[id]
    ensures FullLoad(h).firedTimers <= FullLoad(h').firedTimers
    decreases |h'|
  {
    if |h| < |h'| {
      var pre := h'[..|h'| - 1];
      OutcomesPersist(h, pre);
      OutcomesComeFromEvents(h);
      forall id | id in FullLoad(h).outcomes
        ensures OutcomeOf(h'[|h'| - 1]) != Some(id)
      {
        var i :| 0 <= i < |h| && OutcomeOf(h[i]) == Some(id);
        assert h'[i] == h[i];
      }
    } else {
      assert h == h';
    }
  }

  lemma {:induction false} AnswersPersist(p: Program, a: Exec, b: Exec, pos: seq<Observation>)
    requires Answers(p, a, pos) && OutcomesOnly(pos)
    requires forall id :: id in a.outcomes ==> id in b.outcomes && b.outcomes[id] == a.outcomes[id]
    requires a.firedTimers <= b.firedTimers
    ensures Answers(p, b, pos)
  {
    if pos != [] { AnswersPersist(p, a, b, pos[..|pos| - 1]); }
  }

  /** For a program that observes only outcomes and firings, and a history with
      one outcome per activity, resuming is replaying; in particular the two
      rounds end alike or not at all. */
  lemma {:induction false} StickyEqualsFull(p: Program, c: Exec, h: seq<HistoryEvent>, h': seq<HistoryEvent>)
    requires Dense(h') && h <= h' && Caches(p, c, h) && RecordsExactly(h'[|h|..], c.newCommands)
    requires UniqueOutcomes(h') && OutcomesOnly(c.position)
    ensures ResumesAsReplay(p, c, h, h')
    ensures forall r :: Settles(p, StickyLoad(c, h', |h|), r) ==>
      exists f :: Settles(p, FullLoad(h'), f) && SameRound(r, f)
    ensures forall f :: Settles(p, FullLoad(h'), f) ==>
      exists r :: Settles(p, StickyLoad(c, h', |h|), r) && SameRound(r, f)
  {
    hide Run, Halted, LoadHistory, LoadNewEvents, ActivityCalls, TimerCalls, Answers;
    OutcomesPersist(h, h');
    AnswersPersist(p, FullLoad(h), FullLoad(h'), c.position);
    StickyEqualsFullIff(p, c, h, h');
    RoundsEndAlike(p, StickyLoad(c, h', |h|), FullLoad(h'), |c.position|);
  }

  lemma {:induction false} RoundsEndAlike(p: Program, s: Exec, e: Exec, k: nat)
    requires forall n: nat :: SameRound(Run(p, s, n), Run(p, e, k + n))
    ensures forall r :: Settles(p, s, r) ==> exists f :: Settles(p, e, f) && SameRound(r, f)
    ensures forall f :: Settles(p, e, f) ==> exists r :: Settles(p, s, r) && SameRound(r, f)
  {
    forall r | Settles(p, s, r) ensures exists f :: Settles(p, e, f) && SameRound(r, f) {
      var n: nat :| r == Run(p, s, n) && Halted(p, r);
      assert SameRound(Run(p, s, n), Run(p, e, k + n));
      assert Settles(p, e, Run(p, e, k + n));
    }
    forall f | Settles(p, e, f) ensures exists r :: Settles(p, s, r) && SameRound(r, f) {
      var m: nat :| f == Run(p, e, m) && Halted(p, f);
      HaltedStays(p, e, m, k + m);
      assert SameRound(Run(p, s, m), Run(p, e, k + m));
      assert Settles(p, s, Run(p, s, m));
    }
  }

  // ------------------------------------------------------- keeping a good cache

  /** A full replay whose coroutine waits beyond the record is fit to be cached. */
  lemma {:induction false} ReplayCaches(p: Program, h: seq<HistoryEvent>, n: nat)
    requires var r := Run(p, FullLoad(h), n); r.phase == Live && Beyond(r)
    ensures Caches(p, Run(p, FullLoad(h), n), h)
  {
    var e, pos := FullLoad(h), Run(p, FullLoad(h), n).position;
    LoadLeavesUnstarted(NewExec(), h);
    ReplayAnswers(p, e, n);
    PositionCaches(p, h, pos);
  }

  lemma {:induction false} PositionCaches(p: Program, h: seq<HistoryEvent>, pos: seq<Observation>)
    requires var e := FullLoad(h);
      Unstarted(e) && Answers(p, e, pos) && Compatible(p, e, pos) && Beyond(At(p, e, pos))
    ensures Caches(p, At(p, FullLoad(h), pos), h)
  {
    hide ActivityCalls, TimerCalls, CommandsFrom, LoadHistory, Answers, CommandedActivities, CommandedTimers;
    var e, calls := FullLoad(h), ActivityCalls(p, pos);
    var a, t := |e.scheduledActivities|, |e.scheduledTimers|;
    CommandsAreCalls(p, pos, a, t);
    CallIds(p, pos);
    assert calls == calls[..a] + calls[a..] == e.scheduledActivities + calls[a..];
  }

  /** So is a resumed one: caching composes over any number of tasks. */
  lemma {:induction false} ResumeCaches(p: Program, c: Exec, h: seq<HistoryEvent>, h': seq<HistoryEvent>, n: nat)
    requires Dense(h') && h <= h' && Caches(p, c, h) && RecordsExactly(h'[|h|..], c.newCommands)
    requires Answers(p, FullLoad(h'), c.position)
    requires Run(p, StickyLoad(c, h', |h|), n).phase == Live
    ensures Caches(p, Run(p, StickyLoad(c, h', |h|), n), h')
  {
    hide Run, Caches, Answers, Beyond, RecordsExactly, StickyLoad, FullLoad;
    var s, e, k := StickyLoad(c, h', |h|), FullLoad(h'), |c.position|;
    ReplayMeetsCache(p, c, h, h');
    LockStep(p, s, Run(p, e, k), n);
    RunSplits(p, e, k, n);
    ReplayCaches(p, h', k + n);
    SameRoundCaches(p, Run(p, s, n), Run(p, e, k + n), h');
  }

  lemma {:induction false} SameRoundCaches(p: Program, a: Exec, b: Exec, h: seq<HistoryEvent>)
    requires SameRound(a, b) && Beyond(a) && Caches(p, b, h)
    ensures Caches(p, a, h)
  {
  }
}
