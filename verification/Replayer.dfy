/** The deterministic replayer: what an Execution holds, how history is loaded
    into it, and how one workflow coroutine advances against it. */
module Replayer {
  import opened Events

  datatype ActivityOutcome = Resolved(result: Payload) | Rejected(failure: Failure)
  datatype ScheduledActivity = ScheduledActivity(activityId: int, activityType: string)
  datatype ScheduledTimer = ScheduledTimer(timerId: int, duration: int)
  datatype ActivityOptions = ActivityOptions(
    retryPolicy: Option<RetryPolicy>, scheduleToStart: int, startToClose: int)
  datatype Signal = Signal(name: string, payload: Payload)

  /** What a workflow coroutine asks of the engine next, and what it is told. */
  datatype Op =
    | Schedule(activityType: string, input: Payload, options: ActivityOptions)
    | Await(activityId: int)
    | NewTimer(duration: int)
    | AwaitTimer(timerId: int)
    | ReadClock
    | ReadCancel
    | Return(result: Payload)
    | Throw(failure: Failure)
    | ContinueAs(continuation: Continuation)

  datatype Observation =
    | ActivityHandle(activityId: int)
    | OutcomeSeen(outcome: ActivityOutcome)
    | TimerHandle(timerId: int)
    | FiringSeen
    | ClockSeen(now: int)
    | CancelSeen(requested: bool, reason: string)

  /** Workflow code is a function from everything it has been told so far to the
      next thing it asks. */
  type Program = seq<Observation> -> Op

  /** `Finished` and `Panicked` are a done coroutine without and with a recorded
      NonDeterministicError. */
  datatype Phase = Live | Finished | Panicked

  /** The fields of an Execution together with its coroutine's position. */
  datatype Exec = Exec(
    now: int,
    scheduledActivities: seq<ScheduledActivity>,
    scheduledTimers: seq<ScheduledTimer>,
    outcomes: map<int, ActivityOutcome>,
    firedTimers: set<int>,
    nextActivityIdx: nat,
    nextTimerIdx: nat,
    newCommands: seq<Command>,
    result: Option<Payload>,
    err: Option<Failure>,
    continuedAsNew: Option<Continuation>,
    cancelRequested: bool,
    cancelReason: string,
    pendingSignals: seq<Signal>,
    position: seq<Observation>,
    phase: Phase)

  /** The zero time stands for an Execution that has seen no started task. */
  const ZERO_TIME: int := 0

  function NewExec(): Exec
  {
    Exec(ZERO_TIME, [], [], map[], {}, 0, 0, [], None, None, None, false, "", [], [], Live)
  }

  // ---------------------------------------------------------------- loading

  /** One turn of LoadHistory's loop. */
  function LoadEvent(e: Exec, ev: HistoryEvent): Exec
  {
    match ev.attributes
    case ActivityTaskScheduled(a) =>
      e.(scheduledActivities := e.scheduledActivities + [ScheduledActivity(a.activityId, a.activityType)])
    case TimerStarted(id, d) =>
      e.(scheduledTimers := e.scheduledTimers + [ScheduledTimer(id, d)])
    case _ => LoadNewEvent(e, ev)
  }

  /** One turn of LoadNewEvents' loop. */
  function LoadNewEvent(e: Exec, ev: HistoryEvent): Exec
  {
    match ev.attributes
    case WorkflowTaskStarted => e.(now := ev.eventTime)
    case ActivityTaskCompleted(id, r) => e.(outcomes := e.outcomes[id := Resolved(r)])
    case ActivityTaskFailed(id, f, _) => e.(outcomes := e.outcomes[id := Rejected(f)])
    case TimerFired(id) => e.(firedTimers := e.firedTimers + {id})
    case WorkflowExecutionCancelRequested(reason) => e.(cancelRequested := true, cancelReason := reason)
    case WorkflowExecutionSignaled(name, p) => e.(pendingSignals := e.pendingSignals + [Signal(name, p)])
    case _ => e
  }

  function LoadHistory(e: Exec, events: seq<HistoryEvent>): Exec
  {
    if events == [] then e
    else LoadEvent(LoadHistory(e, events[..|events| - 1]), events[|events| - 1])
  }

  function LoadNewEvents(e: Exec, events: seq<HistoryEvent>): Exec
  {
    if events == [] then e
    else LoadNewEvent(LoadNewEvents(e, events[..|events| - 1]), events[|events| - 1])
  }

  /** The start input and workflow type LoadHistory hands back. */
  function StartOf(events: seq<HistoryEvent>): (r: Option<(Payload, string)>)
  {
    if events == [] then None
    else
      var a := events[|events| - 1].attributes;
      if a.WorkflowExecutionStarted? then Some((a.input, a.workflowType))
      else StartOf(events[..|events| - 1])
  }

  function ResetRoundOutput(e: Exec): Exec
  {
    e.(newCommands := [], result := None, err := None, continuedAsNew := None)
  }

  // ------------------------------------------------------------- primitives

  function DurationOrNil(d: int): Option<int>
  {
    if d <= 0 then None else Some(d)
  }

  function ActivityCommandOf(id: int, activityType: string, input: Payload, o: ActivityOptions): Command
  {
    ScheduleActivityTask(ActivityCommand(id, activityType, input, o.retryPolicy,
                                         DurationOrNil(o.scheduleToStart), DurationOrNil(o.startToClose)))
  }

  /** ScheduleActivity: the id is the call order; a recorded call must match. */
  function ScheduleActivity(e: Exec, activityType: string, input: Payload, o: ActivityOptions): Exec
  {
    var idx := e.nextActivityIdx;
    var e' := e.(nextActivityIdx := idx + 1);
    if idx < |e.scheduledActivities| then
      if e.scheduledActivities[idx] != ScheduledActivity(idx + 1, activityType)
      then e'.(phase := Panicked)
      else e'.(position := e.position + [ActivityHandle(idx + 1)])
    else
      e'.(newCommands := e.newCommands + [ActivityCommandOf(idx + 1, activityType, input, o)],
          position := e.position + [ActivityHandle(idx + 1)])
  }

  /** ScheduleTimer: only the timer id is compared with the record. */
  function ScheduleTimer(e: Exec, duration: int): Exec
  {
    var idx := e.nextTimerIdx;
    var e' := e.(nextTimerIdx := idx + 1);
    if idx < |e.scheduledTimers| then
      if e.scheduledTimers[idx].timerId != idx + 1
      then e'.(phase := Panicked)
      else e'.(position := e.position + [TimerHandle(idx + 1)])
    else
      e'.(newCommands := e.newCommands + [StartTimer(idx + 1, duration)],
          position := e.position + [TimerHandle(idx + 1)])
  }

  function CompleteExecution(e: Exec, result: Payload): Exec
  {
    e.(result := Some(result), newCommands := e.newCommands + [CompleteWorkflowExecution(result)], phase := Finished)
  }

  function FailExecution(e: Exec, failure: Failure): Exec
  {
    e.(err := Some(failure), newCommands := e.newCommands + [FailWorkflowExecution(failure)], phase := Finished)
  }

  function ContinueExecution(e: Exec, c: Continuation): Exec
  {
    e.(continuedAsNew := Some(c), newCommands := e.newCommands + [ContinueAsNewWorkflowExecution(c)], phase := Finished)
  }

  // ------------------------------------------------------ running a coroutine

  /** The coroutine is in Yield: its future has nothing to report yet. */
  predicate Blocked(p: Program, e: Exec)
  {
    var op := p(e.position);
    (op.Await? && op.activityId !in e.outcomes) || (op.AwaitTimer? && op.timerId !in e.firedTimers)
  }

  predicate Halted(p: Program, e: Exec)
  {
    e.phase != Live || Blocked(p, e)
  }

  /** One engine call made by the coroutine; a halted coroutine stays put. */
  function Advance(p: Program, e: Exec): Exec
  {
    if Halted(p, e) then e
    else match p(e.position)
      case Schedule(t, input, o) => ScheduleActivity(e, t, input, o)
      case Await(id) => e.(position := e.position + [OutcomeSeen(e.outcomes[id])])
      case NewTimer(d) => ScheduleTimer(e, d)
      case AwaitTimer(_) => e.(position := e.position + [FiringSeen])
      case ReadClock => e.(position := e.position + [ClockSeen(e.now)])
      case ReadCancel => e.(position := e.position + [CancelSeen(e.cancelRequested, e.cancelReason)])
      case Return(r) => CompleteExecution(e, r)
      case Throw(f) => FailExecution(e, f)
      case ContinueAs(c) => ContinueExecution(e, c)
  }

  function Run(p: Program, e: Exec, n: nat): Exec
  {
    if n == 0 then e else Advance(p, Run(p, e, n - 1))
  }

  /** `r` is where a round started in `e` ends: the coroutine has yielded or is
      done.  A round of a coroutine that never yields has no result. */
  ghost predicate Settles(p: Program, e: Exec, r: Exec)
  {
    exists n: nat :: r == Run(p, e, n) && Halted(p, r)
  }

  /** A cache miss: load everything, start a fresh coroutine. */
  function FullLoad(history: seq<HistoryEvent>): Exec
  {
    LoadHistory(NewExec(), history)
  }

  /** The tail of history with ids above `lastEventId`. */
  function EventsAfter(history: seq<HistoryEvent>, lastEventId: int): (r: seq<HistoryEvent>)
  {
    if history == [] then []
    else if history[0].eventId > lastEventId then history
    else EventsAfter(history[1..], lastEventId)
  }

  /** A cache hit: clear the last round's output and feed in the tail. */
  function StickyLoad(cached: Exec, history: seq<HistoryEvent>, lastEventId: int): Exec
  {
    LoadNewEvents(ResetRoundOutput(cached), EventsAfter(history, lastEventId))
  }
}
