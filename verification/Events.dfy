/** Values that cross the wire between a flowd worker and the flowd server:
    payloads, commands and history events.  Payloads are opaque. */
module Events {

  datatype Option<+T> = None | Some(value: T)

  /** Stands for a generated UUID; the store issues each number once. */
  type Uuid = nat

  datatype Payload = Payload(data: string)
  datatype Failure = Failure(kind: string, message: string)

  datatype RetryPolicy = RetryPolicy(
    initialInterval: Option<int>,
    maxInterval: Option<int>,
    coefficient: real,
    maxAttempts: int,
    nonRetryable: seq<string>)

  datatype ActivityCommand = ActivityCommand(
    activityId: int,
    activityType: string,
    input: Payload,
    retryPolicy: Option<RetryPolicy>,
    scheduleToStart: Option<int>,
    startToClose: Option<int>)

  datatype Continuation = Continuation(
    workflowType: string,
    taskQueue: string,
    input: Payload,
    retryPolicy: Option<RetryPolicy>,
    runTimeout: Option<int>,
    taskTimeout: Option<int>)

  /** The commands of a workflow task response.  `Unsupported` is the arm of the
      server's switch that recognises nothing. */
  datatype Command =
    | ScheduleActivityTask(activity: ActivityCommand)
    | StartTimer(timerId: int, duration: int)
    | CompleteWorkflowExecution(result: Payload)
    | FailWorkflowExecution(failure: Failure)
    | ContinueAsNewWorkflowExecution(continuation: Continuation)
    | Unsupported

  datatype Attributes =
    | WorkflowExecutionStarted(
        workflowType: string, taskQueue: string, input: Payload,
        retryPolicy: Option<RetryPolicy>, continuedFrom: Option<Uuid>)
    | WorkflowTaskScheduled(taskQueue: string)
    | WorkflowTaskStarted
    | WorkflowTaskCompleted
    | ActivityTaskScheduled(activity: ActivityCommand)
    | ActivityTaskStarted(activityId: int, attempt: int)
    | ActivityTaskCompleted(activityId: int, result: Payload)
    | ActivityTaskFailed(activityId: int, failure: Failure, attempt: int)
    | TimerStarted(timerId: int, duration: int)
    | TimerFired(timerId: int)
    | WorkflowExecutionCompleted(result: Payload)
    | WorkflowExecutionFailed(failure: Failure)
    | WorkflowExecutionTerminated(reason: string)
    | WorkflowExecutionContinuedAsNew(
        newRunId: Uuid, workflowType: string, taskQueue: string, input: Payload)
    | WorkflowExecutionSignaled(signalName: string, input: Payload)
    | WorkflowExecutionCancelRequested(reason: string)

  datatype HistoryEvent = HistoryEvent(eventId: int, eventTime: int, attributes: Attributes)

  /** A history whose ids are 1, 2, 3, ... in order. */
  ghost predicate Dense(history: seq<HistoryEvent>)
  {
    forall i :: 0 <= i < |history| ==> history[i].eventId == i + 1
  }
}
