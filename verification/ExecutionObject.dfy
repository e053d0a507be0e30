/** The Execution as the object it is: fields updated in place by loops over events,
    by the coroutine's engine calls and by signal delivery, each shown to do what the
    replayer's functions say. */
module ExecutionObject {
  import opened Events
  import opened Replayer
  import opened Signals
  import opened StickyReplay

  lemma {:induction false} LoadNext(e: Exec, events: seq<HistoryEvent>, i: nat)
    requires i < |events|
    ensures Replayer.LoadHistory(e, events[..i + 1]) == LoadEvent(Replayer.LoadHistory(e, events[..i]), events[i])
    ensures Replayer.LoadNewEvents(e, events[..i + 1]) == LoadNewEvent(Replayer.LoadNewEvents(e, events[..i]), events[i])
    ensures var a := events[i].attributes;
      StartOf(events[..i + 1]) == if a.WorkflowExecutionStarted? then Some((a.input, a.workflowType)) else StartOf(events[..i])
  {
    assert events[..i + 1][..i] == events[..i];
  }

  lemma LoadNone(e: Exec, events: seq<HistoryEvent>)
    ensures Replayer.LoadHistory(e, events[..0]) == e && StartOf(events[..0]) == None
  {
  }

  class Execution {
    var now: int
    var scheduledActivities: seq<ScheduledActivity>
    var scheduledTimers: seq<ScheduledTimer>
    var outcomes: map<int, ActivityOutcome>
    var firedTimers: set<int>
    var nextActivityIdx: nat
    var nextTimerIdx: nat
    var newCommands: seq<Command>
    var result: Option<Payload>
    var err: Option<Failure>
    var continuedAsNew: Option<Continuation>
    var cancelRequested: bool
    var cancelReason: string
    var pendingSignals: seq<Signal>
    var signalHandlers: set<string>
    var handled: seq<Signal>
    var signalPumpStarted: bool
    // The goroutine: what it has been told, and whether it has returned or panicked.
    var position: seq<Observation>
    var phase: Phase

    function State(): Exec
      reads this
    {
      Exec(now, scheduledActivities, scheduledTimers, outcomes, firedTimers, nextActivityIdx, nextTimerIdx, newCommands,
           result, err, continuedAsNew, cancelRequested, cancelReason, pendingSignals, position, phase)
    }

    function Signals(): Inbox
      reads this
    {
      Inbox(signalHandlers, pendingSignals, handled)
    }

    constructor ()
      ensures State() == NewExec() && Signals() == Inbox({}, [], []) && !signalPumpStarted
    {
      now := ZERO_TIME;
      scheduledActivities, scheduledTimers, outcomes, firedTimers := [], [], map[], {};
      nextActivityIdx, nextTimerIdx, newCommands := 0, 0, [];
      result, err, continuedAsNew := None, None, None;
      cancelRequested, cancelReason, pendingSignals := false, "", [];
      signalHandlers, handled, signalPumpStarted, position, phase := {}, [], false, [], Live;
    }

    /** The arms that both loaders have: what a waiting coroutine may observe. */
    method Observe(ev: HistoryEvent)
      modifies this
      ensures State() == LoadNewEvent(old(State()), ev)
      ensures signalHandlers == old(signalHandlers) && handled == old(handled) && signalPumpStarted == old(signalPumpStarted)
    {
      match ev.attributes {
        case WorkflowTaskStarted => now := ev.eventTime;
        case ActivityTaskCompleted(id, r) => outcomes := outcomes[id := Resolved(r)];
        case ActivityTaskFailed(id, f, _) => outcomes := outcomes[id := Rejected(f)];
        case TimerFired(id) => firedTimers := firedTimers + {id};
        case WorkflowExecutionCancelRequested(reason) => cancelRequested, cancelReason := true, reason;
        case WorkflowExecutionSignaled(name, p) => pendingSignals := pendingSignals + [Signal(name, p)];
        case _ =>
      }
    }

    /** Scan a run's history from the beginning. */
    method LoadHistory(events: seq<HistoryEvent>) returns (start: Option<(Payload, string)>)
      modifies this
      ensures State() == Replayer.LoadHistory(old(State()), events)
      ensures start == StartOf(events)
      ensures signalHandlers == old(signalHandlers) && handled == old(handled) && signalPumpStarted == old(signalPumpStarted)
    {
      hide Replayer.LoadHistory, Replayer.LoadNewEvents, StartOf;
      start := None;
      LoadNone(State(), events);
      for i := 0 to |events|
        invariant State() == Replayer.LoadHistory(old(State()), events[..i])
        invariant start == StartOf(events[..i])
        invariant signalHandlers == old(signalHandlers) && handled == old(handled) && signalPumpStarted == old(signalPumpStarted)
      {
        LoadNext(old(State()), events, i);
        match events[i].attributes {
          case WorkflowExecutionStarted(workflowType, _, input, _, _) => start := Some((input, workflowType));
          case ActivityTaskScheduled(a) =>
            scheduledActivities := scheduledActivities + [ScheduledActivity(a.activityId, a.activityType)];
          case TimerStarted(id, d) => scheduledTimers := scheduledTimers + [ScheduledTimer(id, d)];
          case _ => Observe(events[i]);
        }
      }
      assert events[..|events|] == events;
    }

    /** Feed in only what a coroutine blocked in Yield may be waiting for. */
    method LoadNewEvents(events: seq<HistoryEvent>)
      modifies this
      ensures State() == Replayer.LoadNewEvents(old(State()), events)
      ensures signalHandlers == old(signalHandlers) && handled == old(handled) && signalPumpStarted == old(signalPumpStarted)
    {
      for i := 0 to |events|
        invariant State() == Replayer.LoadNewEvents(old(State()), events[..i])
        invariant signalHandlers == old(signalHandlers) && handled == old(handled) && signalPumpStarted == old(signalPumpStarted)
      {
        LoadNext(old(State()), events, i);
        Observe(events[i]);
      }
      assert events[..|events|] == events;
    }

    method ResetRoundOutput()
      modifies this
      ensures State() == Replayer.ResetRoundOutput(old(State()))
      ensures signalHandlers == old(signalHandlers) && handled == old(handled) && signalPumpStarted == old(signalPumpStarted)
    {
      newCommands, result, err, continuedAsNew := [], None, None, None;
    }

    /** The Nth call gets id N; a call that history already records must match it. */
    method ScheduleActivity(activityType: string, input: Payload, options: ActivityOptions)
      requires phase == Live
      modifies this
      ensures State() == Replayer.ScheduleActivity(old(State()), activityType, input, options)
      ensures signalHandlers == old(signalHandlers) && handled == old(handled) && signalPumpStarted == old(signalPumpStarted)
    {
      var idx := nextActivityIdx;
      nextActivityIdx := nextActivityIdx + 1;
      var id := idx + 1;
      if idx < |scheduledActivities| {
        var recorded := scheduledActivities[idx];
        if recorded.activityId != id || recorded.activityType != activityType {
          phase := Panicked;
          return;
        }
      } else {
        newCommands := newCommands + [ScheduleActivityTask(ActivityCommand(
          id, activityType, input, options.retryPolicy, DurationOrNil(options.scheduleToStart), DurationOrNil(options.startToClose)))];
      }
      position := position + [ActivityHandle(id)];
    }

    method ScheduleTimer(duration: int)
      requires phase == Live
      modifies this
      ensures State() == Replayer.ScheduleTimer(old(State()), duration)
      ensures signalHandlers == old(signalHandlers) && handled == old(handled) && signalPumpStarted == old(signalPumpStarted)
    {
      var idx := nextTimerIdx;
      nextTimerIdx := nextTimerIdx + 1;
      var id := idx + 1;
      if idx < |scheduledTimers| {
        if scheduledTimers[idx].timerId != id {
          phase := Panicked;
          return;
        }
      } else {
        newCommands := newCommands + [StartTimer(id, duration)];
      }
      position := position + [TimerHandle(id)];
    }

    /** The workflow function has returned a result or a failure. */
    method Complete(r: Payload, failure: Option<Failure>)
      modifies this
      ensures State() == match failure
        case Some(f) => FailExecution(old(State()), f)
        case None => CompleteExecution(old(State()), r)
      ensures signalHandlers == old(signalHandlers) && handled == old(handled) && signalPumpStarted == old(signalPumpStarted)
    {
      if failure.Some? {
        err := failure;
        newCommands := newCommands + [FailWorkflowExecution(failure.value)];
      } else {
        result := Some(r);
        newCommands := newCommands + [CompleteWorkflowExecution(r)];
      }
      phase := Finished;
    }

    method ContinueAsNew(c: Continuation)
      modifies this
      ensures State() == ContinueExecution(old(State()), c)
      ensures signalHandlers == old(signalHandlers) && handled == old(handled) && signalPumpStarted == old(signalPumpStarted)
    {
      continuedAsNew := Some(c);
      newCommands := newCommands + [ContinueAsNewWorkflowExecution(c)];
      phase := Finished;
    }

    /** One engine call of a coroutine that is not waiting. */
    method Call(p: Program)
      requires !Halted(p, State())
      modifies this
      ensures State() == Advance(p, old(State()))
      ensures signalHandlers == old(signalHandlers) && handled == old(handled) && signalPumpStarted == old(signalPumpStarted)
    {
      hide Replayer.ScheduleActivity, Replayer.ScheduleTimer;
      match p(position) {
        case Schedule(t, input, options) => ScheduleActivity(t, input, options);
        case Await(id) => position := position + [OutcomeSeen(outcomes[id])];
        case NewTimer(d) => ScheduleTimer(d);
        case AwaitTimer(id) => position := position + [FiringSeen];
        case ReadClock => position := position + [ClockSeen(now)];
        case ReadCancel => position := position + [CancelSeen(cancelRequested, cancelReason)];
        case Return(r) => Complete(r, None);
        case Throw(f) => Complete(Payload(""), Some(f));
        case ContinueAs(c) => ContinueAsNew(c);
      }
    }

    /** Resume the coroutine until it yields or is done.  `n` bounds its engine
        calls: a coroutine that never yields never gives the round back. */
    method ExecuteRound(p: Program, ghost n: nat)
      requires Halted(p, Run(p, State(), n))
      modifies this
      ensures State() == Run(p, old(State()), n) && Settles(p, old(State()), State())
      ensures signalHandlers == old(signalHandlers) && handled == old(handled) && signalPumpStarted == old(signalPumpStarted)
    {
      hide Advance, Halted;
      ghost var k := 0;
      while !Halted(p, State())
        invariant k <= n && State() == Run(p, old(State()), k)
        invariant signalHandlers == old(signalHandlers) && handled == old(handled) && signalPumpStarted == old(signalPumpStarted)
        decreases n - k
      {
        Call(p);
        k := k + 1;
      }
      HaltedStays(p, old(State()), k, n);
    }

    /** Deliver every pending signal that has a handler; keep the others, in order. */
    method DrainSignals()
      modifies this
      ensures Signals() == Drain(old(Signals())) && signalPumpStarted == old(signalPumpStarted)
      ensures State() == old(State()).(pendingSignals := pendingSignals)
    {
      var signals, remaining: seq<Signal> := pendingSignals, [];
      for i := 0 to |signals|
        invariant remaining == Unclaimed(signalHandlers, signals[..i])
        invariant handled == old(handled) + Claimed(signalHandlers, signals[..i])
        invariant signalHandlers == old(signalHandlers) && State() == old(State()) && signalPumpStarted == old(signalPumpStarted)
      {
        assert signals[..i + 1][..i] == signals[..i];
        if signals[i].name in signalHandlers {
          handled := handled + [signals[i]];
        } else {
          remaining := remaining + [signals[i]];
        }
      }
      assert signals[..|signals|] == signals;
      pendingSignals := remaining;
    }

    /** Register a handler, deliver its backlog at once, and start the pump coroutine
        unless it is there already. */
    method SetSignalHandler(name: string)
      modifies this
      ensures Signals() == Act(old(Signals()), Register(name)) && signalPumpStarted
      ensures State() == old(State()).(pendingSignals := pendingSignals)
    {
      signalHandlers := signalHandlers + {name};
      DrainSignals();
      signalPumpStarted := true;
    }

    /** A whole round: the workflow's coroutine, and then the pump if it had been
        started before the round began. */
    method ExecuteRoundAndPump(p: Program, ghost n: nat)
      requires Halted(p, Run(p, State(), n))
      modifies this
      ensures State() == Run(p, old(State()), n).(pendingSignals := pendingSignals)
      ensures Signals() == if old(signalPumpStarted) then Act(old(Signals()), Pump) else old(Signals())
      ensures signalPumpStarted == old(signalPumpStarted)
    {
      var pump := signalPumpStarted;
      RunKeepsSignals(p, State(), n);
      ExecuteRound(p, n);
      if pump { DrainSignals(); }
    }
  }

  /** Engine calls leave the queued signals alone. */
  lemma {:induction false} RunKeepsSignals(p: Program, e: Exec, n: nat)
    ensures Run(p, e, n).pendingSignals == e.pendingSignals
  {
    if n > 0 { RunKeepsSignals(p, e, n - 1); }
  }

  /** What the two loaders queue is what the events record. */
  lemma {:induction false} LoadersQueueSignals(e: Exec, events: seq<HistoryEvent>)
    ensures Replayer.LoadHistory(e, events).pendingSignals == e.pendingSignals + SignalsIn(events)
    ensures Replayer.LoadNewEvents(e, events).pendingSignals == e.pendingSignals + SignalsIn(events)
  {
    if events != [] { LoadersQueueSignals(e, events[..|events| - 1]); }
  }
}
