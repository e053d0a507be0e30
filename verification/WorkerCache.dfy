/** A worker's cache of Executions over the life of a run: whatever is hit, missed or
    evicted, the server is told the same. */
module WorkerCache {
  import opened Events
  import opened Replayer
  import opened StickyReplay
  import opened ReplayPaths

  /** Where a round starts: on a hit from the cached Execution and the tail of the
      history, on a miss from the whole of it. */
  function RoundStart(hit: bool, c: Exec, d: seq<HistoryEvent>, d': seq<HistoryEvent>): Exec
  {
    if hit then StickyLoad(c, d', |d|) else FullLoad(d')
  }

  /** The next delivered history holds, beyond what was delivered before, exactly the
      commands of the last response: it was accepted and no other worker's was. */
  ghost predicate Continues(p: Program, c: Exec, d: seq<HistoryEvent>, d': seq<HistoryEvent>)
  {
    Dense(d') && d <= d' && RecordsExactly(d'[|d|..], c.newCommands) && UniqueOutcomes(d')
  }

  /** The round ends as a full replay of the delivered history ends. */
  ghost predicate AsReplayed(p: Program, d: seq<HistoryEvent>, r: Exec)
  {
    exists f :: Settles(p, FullLoad(d), f) && SameRound(r, f)
  }

  lemma CachedAnswers(p: Program, c: Exec, d: seq<HistoryEvent>, d': seq<HistoryEvent>)
    requires OutcomeDriven(p) && Caches(p, c, d) && Continues(p, c, d, d')
    ensures Answers(p, FullLoad(d'), c.position) && OutcomesOnly(c.position)
  {
    hide Answers, FullLoad, ActivityCalls, TimerCalls, RecordedActivities, RecordedTimers, RecordsExactly;
    OutcomeDrivenAnswers(p, FullLoad(d), c.position);
    OutcomesPersist(d, d');
    AnswersPersist(p, FullLoad(d), FullLoad(d'), c.position);
  }

  /** A hit ends as a miss would. */
  lemma HitIsReplay(p: Program, c: Exec, d: seq<HistoryEvent>, d': seq<HistoryEvent>, r: Exec)
    requires OutcomeDriven(p) && Caches(p, c, d) && Continues(p, c, d, d')
    requires Settles(p, StickyLoad(c, d', |d|), r)
    ensures AsReplayed(p, d', r) && (r.phase == Live ==> Caches(p, r, d'))
  {
    hide OutcomeDriven, Caches, Settles, Answers, FullLoad, StickyLoad, RecordsExactly, UniqueOutcomes, OutcomesOnly;
    CachedAnswers(p, c, d, d');
    StickyEqualsFull(p, c, d, d');
    if r.phase == Live {
      var n := RoundLength(p, StickyLoad(c, d', |d|), r);
      ResumeCaches(p, c, d, d', n);
    }
  }

  lemma RoundLength(p: Program, e: Exec, r: Exec) returns (n: nat)
    requires Settles(p, e, r)
    ensures r == Run(p, e, n) && Halted(p, r)
  {
    n :| r == Run(p, e, n) && Halted(p, r);
  }

  /** A miss is fit to be cached, because replay passes the point the cached
      coroutine had reached. */
  lemma MissCaches(p: Program, c: Exec, d: seq<HistoryEvent>, d': seq<HistoryEvent>, r: Exec)
    requires OutcomeDriven(p) && Caches(p, c, d) && Continues(p, c, d, d')
    requires Settles(p, FullLoad(d'), r) && r.phase == Live
    ensures Caches(p, r, d')
  {
    hide OutcomeDriven, Caches, Settles, Answers, FullLoad, StickyLoad, RecordsExactly, UniqueOutcomes, Beyond, Run, Halted;
    var e, k := FullLoad(d'), |c.position|;
    CachedAnswers(p, c, d, d');
    ReplayMeetsCache(p, c, d, d');
    var n := RoundLength(p, e, r);
    if n < k { HaltedStays(p, e, n, k); n := k; }
    LockStep(p, StickyLoad(c, d', |d|), Run(p, e, k), n - k);
    RunSplits(p, e, k, n - k);
    ReplayCaches(p, d', n);
  }

  lemma CacheStep(p: Program, c: Exec, d: seq<HistoryEvent>, d': seq<HistoryEvent>, hit: bool, r: Exec)
    requires OutcomeDriven(p) && Caches(p, c, d) && Continues(p, c, d, d')
    requires Settles(p, RoundStart(hit, c, d, d'), r)
    ensures AsReplayed(p, d', r) && (r.phase == Live ==> Caches(p, r, d'))
  {
    hide OutcomeDriven, Caches, Settles, FullLoad, StickyLoad, Continues;
    if hit {
      HitIsReplay(p, c, d, d', r);
    } else if r.phase == Live {
      MissCaches(p, c, d, d', r);
    }
  }

  /** A run's tasks on one worker: what was delivered, whether the cache had the run,
      and where each round ended.  Which tasks hit is up to the cache. */
  ghost predicate Session(p: Program, hits: seq<bool>, ds: seq<seq<HistoryEvent>>, rs: seq<Exec>)
  {
    && |hits| == |ds| == |rs|
    && (|ds| > 0 ==> Settles(p, FullLoad(ds[0]), rs[0]) && exists q :: Follows(p, ds[0], q))
    && (forall i :: 0 < i < |ds| ==> SessionStep(p, hits[i], ds[i - 1], ds[i], rs[i - 1], rs[i]))
  }

  ghost predicate SessionStep(p: Program, hit: bool, d: seq<HistoryEvent>, d': seq<HistoryEvent>, r: Exec, r': Exec)
  {
    r.phase == Live && Continues(p, r, d, d') && Settles(p, RoundStart(hit, r, d, d'), r')
  }

  lemma FirstRoundCaches(p: Program, d: seq<HistoryEvent>, q: seq<Observation>, r: Exec)
    requires Follows(p, d, q) && Settles(p, FullLoad(d), r) && r.phase == Live
    ensures Caches(p, r, d)
  {
    hide Follows, Caches, Settles, FullLoad, Beyond, Run, Halted, At;
    var e, k := FullLoad(d), |q|;
    FollowedReplay(p, d, q);
    var n := RoundLength(p, e, r);
    if n < k { HaltedStays(p, e, n, k); n := k; }
    LockStep(p, Run(p, e, k), Run(p, e, k), n - k);
    RunSplits(p, e, k, n - k);
    ReplayCaches(p, d, n);
  }

  /** Caching is invisible: over any number of tasks, with any hits, misses and
      evictions, every round ends with the position, counters, commands and outcome of
      a full replay of what was delivered. */
  lemma {:induction false} EvictionIsInvisible(p: Program, hits: seq<bool>, ds: seq<seq<HistoryEvent>>, rs: seq<Exec>, i: nat)
    requires OutcomeDriven(p) && Session(p, hits, ds, rs) && i < |ds|
    ensures AsReplayed(p, ds[i], rs[i]) && (rs[i].phase == Live ==> Caches(p, rs[i], ds[i]))
  {
    hide OutcomeDriven, Caches, Settles, FullLoad, Follows, Continues;
    if i == 0 {
      var q :| Follows(p, ds[0], q);
      if rs[0].phase == Live { FirstRoundCaches(p, ds[0], q, rs[0]); }
    } else {
      EvictionIsInvisible(p, hits, ds, rs, i - 1);
      assert SessionStep(p, hits[i], ds[i - 1], ds[i], rs[i - 1], rs[i]);
      CacheStep(p, rs[i - 1], ds[i - 1], ds[i], hits[i], rs[i]);
    }
  }

  /** Two workers with different luck send the same responses. */
  lemma SameResponses(p: Program, hits: seq<bool>, hits': seq<bool>, ds: seq<seq<HistoryEvent>>, rs: seq<Exec>, rs': seq<Exec>, i: nat)
    requires OutcomeDriven(p) && Session(p, hits, ds, rs) && Session(p, hits', ds, rs') && i < |ds|
    ensures rs[i].newCommands == rs'[i].newCommands && rs[i].phase == rs'[i].phase && rs[i].position == rs'[i].position
  {
    hide OutcomeDriven, SessionStep, Settles, FullLoad, Caches, Follows;
    EvictionIsInvisible(p, hits, ds, rs, i);
    EvictionIsInvisible(p, hits', ds, rs', i);
    var f :| Settles(p, FullLoad(ds[i]), f) && SameRound(rs[i], f);
    var f' :| Settles(p, FullLoad(ds[i]), f') && SameRound(rs'[i], f');
    RoundResultUnique(p, FullLoad(ds[i]), f, f');
  }

  /** A history without responses is where every program starts. */
  lemma FreshFollows(p: Program, d: seq<HistoryEvent>)
    requires HasAllResponses([], d)
    ensures Follows(p, d, [])
  {
    QuietTail([], d);
  }

  /** Each round starts where it may, given what the one before it left. */
  ghost predicate RoundsSettle(p: Program, hits: seq<bool>, ds: seq<seq<HistoryEvent>>, rs: seq<Exec>)
    requires |hits| == |ds| == |rs|
  {
    forall i :: 0 <= i < |ds| ==> RoundSettles(p, hits, ds, rs, i)
  }

  ghost predicate RoundSettles(p: Program, hits: seq<bool>, ds: seq<seq<HistoryEvent>>, rs: seq<Exec>, i: int)
    requires |hits| == |ds| == |rs| && 0 <= i < |ds|
  {
    Settles(p, if i > 0 then RoundStart(hits[i], rs[i - 1], ds[i - 1], ds[i]) else FullLoad(ds[i]), rs[i])
  }

  /** Delivery i continues where the round before it left a running workflow. */
  ghost predicate GoesOn(p: Program, ds: seq<seq<HistoryEvent>>, rs: seq<Exec>, i: int)
    requires |ds| == |rs| && 0 < i < |ds|
  {
    rs[i - 1].phase == Live && Continues(p, rs[i - 1], ds[i - 1], ds[i])
  }

  /** Consecutive deliveries and rounds make a session. */
  lemma SessionOf(p: Program, hits: seq<bool>, ds: seq<seq<HistoryEvent>>, rs: seq<Exec>)
    requires |hits| == |ds| == |rs| && RoundsSettle(p, hits, ds, rs)
    requires |ds| > 0 ==> HasAllResponses([], ds[0])
    requires forall i :: 0 < i < |ds| ==> GoesOn(p, ds, rs, i)
    ensures Session(p, hits, ds, rs)
  {
    hide Settles, FullLoad, StickyLoad, Continues, Follows, HasAllResponses;
    if |ds| > 0 {
      FreshFollows(p, ds[0]);
      assert RoundSettles(p, hits, ds, rs, 0);
    }
    forall i | 0 < i < |ds| ensures SessionStep(p, hits[i], ds[i - 1], ds[i], rs[i - 1], rs[i]) {
      assert RoundSettles(p, hits, ds, rs, i) && GoesOn(p, ds, rs, i);
    }
  }

  // ------------------------------------------------- entries cached by a query

  /** `b` is `a` with commands in front that `a` no longer has. */
  ghost predicate Ahead(pre: seq<Command>, a: Exec, b: Exec)
  {
    SameRound(Prefixed(pre, a), b)
  }

  lemma {:induction false} AdvanceAhead(p: Program, pre: seq<Command>, a: Exec, b: Exec)
    requires Ahead(pre, a, b) && Beyond(a) && Beyond(b)
    ensures Ahead(pre, Advance(p, a), Advance(p, b)) && Beyond(Advance(p, a)) && Beyond(Advance(p, b))
  {
    hide Advance;
    AdvanceTogether(p, Prefixed(pre, a), b);
    AddsCommands(p, pre, a);
  }

  function Prefixed(pre: seq<Command>, a: Exec): Exec
  {
    a.(newCommands := pre + a.newCommands)
  }

  lemma PrefixedSchedule(pre: seq<Command>, a: Exec, t: string, input: Payload, o: ActivityOptions)
    requires Beyond(a)
    ensures ScheduleActivity(Prefixed(pre, a), t, input, o) == Prefixed(pre, ScheduleActivity(a, t, input, o))
    ensures Beyond(ScheduleActivity(a, t, input, o))
  {
    var c := ActivityCommandOf(a.nextActivityIdx + 1, t, input, o);
    assert pre + (a.newCommands + [c]) == (pre + a.newCommands) + [c];
  }

  lemma PrefixedTimer(pre: seq<Command>, a: Exec, d: int)
    requires Beyond(a)
    ensures ScheduleTimer(Prefixed(pre, a), d) == Prefixed(pre, ScheduleTimer(a, d)) && Beyond(ScheduleTimer(a, d))
  {
    var c := StartTimer(a.nextTimerIdx + 1, d);
    assert pre + (a.newCommands + [c]) == (pre + a.newCommands) + [c];
  }

  lemma PrefixedEnd(pre: seq<Command>, a: Exec, c: Command)
    ensures pre + (a.newCommands + [c]) == (pre + a.newCommands) + [c]
  {
  }

  /** An engine call does not look at the commands so far. */
  lemma {:induction false} AddsCommands(p: Program, pre: seq<Command>, a: Exec)
    requires Beyond(a)
    ensures Advance(p, Prefixed(pre, a)) == Prefixed(pre, Advance(p, a)) && Beyond(Advance(p, a))
  {
    hide ScheduleActivity, ScheduleTimer;
    match p(a.position) {
      case Schedule(t, input, o) => PrefixedSchedule(pre, a, t, input, o);
      case NewTimer(d) => PrefixedTimer(pre, a, d);
      case Return(r) => PrefixedEnd(pre, a, CompleteWorkflowExecution(r));
      case Throw(f) => PrefixedEnd(pre, a, FailWorkflowExecution(f));
      case ContinueAs(c) => PrefixedEnd(pre, a, ContinueAsNewWorkflowExecution(c));
      case _ =>
    }
  }

  lemma {:induction false} RunAhead(p: Program, pre: seq<Command>, a: Exec, b: Exec, n: nat)
    requires Ahead(pre, a, b) && Beyond(a) && Beyond(b)
    ensures Ahead(pre, Run(p, a, n), Run(p, b, n)) && Beyond(Run(p, a, n)) && Beyond(Run(p, b, n))
  {
    hide Advance, Ahead, Beyond;
    if n > 0 {
      RunAhead(p, pre, a, b, n - 1);
      AdvanceAhead(p, pre, Run(p, a, n - 1), Run(p, b, n - 1));
    }
  }

  /** A query that misses the cache replays the run and stores the result, but
      reports none of its commands.  When the next workflow task hits that entry, the
      round is a full replay except that exactly those commands are missing from it:
      the entry is sound if and only if there were none. */
  lemma QueryEntryLosesItsCommands(p: Program, c: Exec, d: seq<HistoryEvent>, d': seq<HistoryEvent>, m: nat, n: nat)
    requires OutcomeDriven(p) && c == Run(p, FullLoad(d), m) && c.phase == Live && Beyond(c)
    requires Dense(d') && d <= d' && RecordsExactly(d'[|d|..], []) && UniqueOutcomes(d')
    ensures var s, f := Run(p, StickyLoad(c, d', |d|), n), Run(p, FullLoad(d'), |c.position| + n);
      && f.newCommands == c.newCommands + s.newCommands && f.position == s.position && f.phase == s.phase
      && (SameRound(s, f) <==> c.newCommands == [])
  {
    hide OutcomeDriven, Run, Beyond, FullLoad, StickyLoad, RecordsExactly, UniqueOutcomes, SameRound;
    QueryEntryMeets(p, c, d, d', m);
    var s, k := StickyLoad(c, d', |d|), |c.position|;
    RunAhead(p, c.newCommands, s, Run(p, FullLoad(d'), k), n);
    RunSplits(p, FullLoad(d'), k, n);
    AheadCommands(c.newCommands, Run(p, s, n), Run(p, FullLoad(d'), k + n));
  }

  lemma AheadCommands(pre: seq<Command>, a: Exec, b: Exec)
    requires Ahead(pre, a, b)
    ensures b.newCommands == pre + a.newCommands && b.position == a.position && b.phase == a.phase
    ensures SameRound(a, b) <==> pre == []
  {
    if pre == [] { assert pre + a.newCommands == a.newCommands; }
  }

  lemma QueryEntryMeets(p: Program, c: Exec, d: seq<HistoryEvent>, d': seq<HistoryEvent>, m: nat)
    requires OutcomeDriven(p) && c == Run(p, FullLoad(d), m) && c.phase == Live && Beyond(c)
    requires Dense(d') && d <= d' && RecordsExactly(d'[|d|..], []) && UniqueOutcomes(d')
    ensures var s, f := StickyLoad(c, d', |d|), Run(p, FullLoad(d'), |c.position|);
      Ahead(c.newCommands, s, f) && Beyond(s) && Beyond(f)
  {
    hide OutcomeDriven, Advance, LoadHistory, LoadNewEvents, Answers, ActivityCalls, TimerCalls, CommandsFrom;
    var e, e' := FullLoad(d), FullLoad(d');
    LoadLeavesUnstarted(NewExec(), d);
    ReplayAnswers(p, e, m);
    OutcomeDrivenAnswers(p, e, c.position);
    OutcomesPersist(d, d');
    AnswersPersist(p, e, e', c.position);
    SameRecord(d, d');
    QueryTail(c, d, d');
    LoadLeavesUnstarted(NewExec(), d');
    ReplayFollows(p, e', c.position);
  }

  lemma SameRecord(d: seq<HistoryEvent>, d': seq<HistoryEvent>)
    requires d <= d' && RecordsExactly(d'[|d|..], [])
    ensures FullLoad(d').scheduledActivities == FullLoad(d).scheduledActivities
    ensures FullLoad(d').scheduledTimers == FullLoad(d).scheduledTimers
  {
    assert d' == d + d'[|d|..];
    RecordedConcat(d, d'[|d|..]);
  }

  lemma QueryTail(c: Exec, d: seq<HistoryEvent>, d': seq<HistoryEvent>)
    requires Dense(d') && d <= d' && SameObservables(c, FullLoad(d))
    ensures var s := StickyLoad(c, d', |d|);
      && SameObservables(s, FullLoad(d'))
      && s == ResetRoundOutput(c).(now := s.now, outcomes := s.outcomes, firedTimers := s.firedTimers,
                                   cancelRequested := s.cancelRequested, cancelReason := s.cancelReason, pendingSignals := s.pendingSignals)
  {
    assert d' == d + d'[|d|..];
    EventsAfterCut(d', 0, |d|);
    LoadConcat(NewExec(), d, d'[|d|..]);
    LoadersAgreeOnObservables(ResetRoundOutput(c), FullLoad(d), d'[|d|..]);
    TailLoadFrame(ResetRoundOutput(c), d'[|d|..]);
  }

  /** A workflow that starts by scheduling an activity. */
  function OneActivity(): Program
  {
    pos => if pos == [] then Schedule("a", Payload(""), ActivityOptions(None, 0, 0)) else Await(1)
  }

  /** If its first replay is a query's, the workflow task that follows schedules
      nothing and waits for ever, where a replay would schedule the activity. */
  lemma QueryFirstNeverSchedules()
    ensures var p, d := OneActivity(), [HistoryEvent(1, 0, WorkflowTaskStarted)];
      var c := Run(p, FullLoad(d), 1);
      && Halted(p, c) && c.newCommands != []
      && forall n: nat :: Run(p, StickyLoad(c, d, 1), n).newCommands == [] && Halted(p, Run(p, StickyLoad(c, d, 1), n))
  {
    var p, d := OneActivity(), [HistoryEvent(1, 0, WorkflowTaskStarted)];
    assert d[..0] == [];
    assert FullLoad(d) == LoadEvent(LoadHistory(NewExec(), d[..0]), d[0]) == NewExec();
    var c := Run(p, FullLoad(d), 1);
    assert c == Advance(p, NewExec());
    EventsAfterCut(d, 0, 1);
    var s := StickyLoad(c, d, 1);
    assert s == ResetRoundOutput(c) && Halted(p, s) && s.newCommands == [];
    forall n: nat ensures Run(p, s, n) == s {
      assert Run(p, s, 0) == s;
      HaltedStays(p, s, 0, n);
    }
  }
}
