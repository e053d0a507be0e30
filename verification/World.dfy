/** Everything that can happen to the store, one atomic statement or transaction
    at a time, together with the calls that are between two of them. */
module World {
  import opened Events
  import opened Store
  import opened Backoff

  /** How far the dispatch of a leased workflow task has got.  A worker holds the
      token only once the history has been delivered. */
  datatype Progress = Leased | Recorded | Delivered(history: seq<HistoryEvent>)
  datatype Ticket = Ticket(token: TaskToken, progress: Progress)

  /** A leased activity task as dequeue returned it; a worker holds the token once
      its start has been recorded. */
  datatype ActivityTicket = ActivityTicket(token: TaskToken, row: ActivityTask, recorded: bool)

  /** A FailWorkflowTask call that has deleted its row and not yet enqueued the
      next one: the row's scheduled_event_id, what the call has read since and
      whether it has cleared the stickiness. */
  datatype FailCall = FailCall(token: TaskToken, scheduledEventId: int, read: Option<Run>, cleared: bool)

  /** An accepted RespondWorkflowTaskCompleted. */
  datatype Acceptance = Acceptance(token: TaskToken, delivered: seq<HistoryEvent>, commands: seq<Command>)

  datatype World = World(
    db: Db,
    tickets: map<Uuid, Ticket>,
    activityTickets: map<Uuid, ActivityTicket>,
    failing: map<Uuid, FailCall>,
    failReads: map<Uuid, ActivityTask>,
    accepted: seq<Acceptance>,
    consumed: seq<Uuid>)

  datatype Step =
    | Start(wk: WorkflowKey, params: StartParams, now: int)
    | Dequeue(taskId: nat, ns: int, taskQueue: string, worker: string, now: int)
    | RecordStarted(lease: Uuid, now: int)
    | Deliver(lease: Uuid)
    | Complete(lease: Uuid, commands: seq<Command>, sticky: Option<Sticky>, now: int)
    | FailDelete(lease: Uuid)
    | FailRead(lease: Uuid)
    | FailClear(lease: Uuid)
    | FailEnqueue(lease: Uuid, now: int)
    | DequeueActivity(taskId: nat, ns: int, taskQueue: string, now: int)
    | RecordActivityStarted(lease: Uuid, now: int)
    | CompleteActivity(lease: Uuid, result: Payload, now: int)
    | ReadActivity(lease: Uuid)
    | FailActivity(lease: Uuid, failure: Failure, platform: int, now: int)
    | Drop(lease: Uuid)
    | Reap(now: int)
    | ReapActivities(now: int)
    | Fire(timer: TimerKey, now: int)
    | Signal(wk: WorkflowKey, runId: Option<Uuid>, name: string, input: Payload, now: int)
    | Cancel(wk: WorkflowKey, runId: Option<Uuid>, reason: string, now: int)
    | Terminated(wk: WorkflowKey, runId: Option<Uuid>, reason: string, now: int)

  function Init(): World
  {
    World(EmptyDb(), map[], map[], map[], map[], [], [])
  }

  /** A rolled back transaction leaves the tables as they were. */
  function After<T>(w: World, tx: Tx<T>): World
  {
    match tx
    case Commit(db, _) => w.(db := db)
    case Rollback(_) => w
  }

  // -------------------------------------------------------- workflow task steps

  function DoDequeue(w: World, taskId: nat, ns: int, taskQueue: string, worker: string, now: int): World
  {
    match DequeueWorkflowTask(w.db, taskId, ns, taskQueue, worker, now)
    case Commit(db, token) => w.(db := db, tickets := w.tickets[token.lease := Ticket(token, Leased)])
    case Rollback(_) => w
  }

  function DoRecordStarted(w: World, lease: Uuid, now: int): World
  {
    if lease !in w.tickets || w.tickets[lease].progress != Leased then w
    else match RecordWorkflowTaskStarted(w.db, w.tickets[lease].token.key, now)
      case Commit(db, _) => w.(db := db, tickets := w.tickets[lease := w.tickets[lease].(progress := Recorded)])
      case Rollback(_) => w
  }

  function DoDeliver(w: World, lease: Uuid): World
  {
    if lease !in w.tickets || w.tickets[lease].progress != Recorded || w.tickets[lease].token.key !in w.db.runs then w
    else w.(tickets := w.tickets[lease :=
              w.tickets[lease].(progress := Delivered(Fetch(w.db.runs[w.tickets[lease].token.key].history)))])
  }

  /** The worker that was delivered this lease's history. */
  predicate HasToken(w: World, lease: Uuid)
  {
    lease in w.tickets && w.tickets[lease].progress.Delivered?
  }

  function DoComplete(w: World, lease: Uuid, cmds: seq<Command>, sticky: Option<Sticky>, now: int): World
  {
    if !HasToken(w, lease) then w
    else
      var t := w.tickets[lease];
      match CompleteWorkflowTask(w.db, t.token, cmds, sticky, now)
      case Commit(db, _) =>
        w.(db := db, consumed := w.consumed + [lease],
           accepted := w.accepted + [Acceptance(t.token, t.progress.history, cmds)])
      case Rollback(_) => w
  }

  function DoFailDelete(w: World, lease: Uuid): World
  {
    if !HasToken(w, lease) then w
    else
      var token := w.tickets[lease].token;
      match DeleteWorkflowTask(w.db, token)
      case Commit(db, _) =>
        var scheduled := if token.taskId in w.db.workflowTasks then w.db.workflowTasks[token.taskId].scheduledEventId else 0;
        w.(db := db, consumed := w.consumed + [lease],
           failing := w.failing[lease := FailCall(token, scheduled, None, false)])
      case Rollback(_) => w
  }

  function DoFailRead(w: World, lease: Uuid): World
  {
    if lease !in w.failing || w.failing[lease].read.Some? || w.failing[lease].token.key !in w.db.runs then w
    else w.(failing := w.failing[lease := w.failing[lease].(read := Some(w.db.runs[w.failing[lease].token.key]))])
  }

  function DoFailClear(w: World, lease: Uuid): World
  {
    if lease !in w.failing || w.failing[lease].read.None? || w.failing[lease].cleared then w
    else w.(db := SetSticky(w.db, w.failing[lease].token.key, None, None),
            failing := w.failing[lease := w.failing[lease].(cleared := true)])
  }

  function DoFailEnqueue(w: World, lease: Uuid, now: int): World
  {
    if lease !in w.failing || w.failing[lease].read.None? || !w.failing[lease].cleared then w
    else
      var c := w.failing[lease];
      w.(db := EnqueueWorkflowTask(w.db, c.token.key, c.read.value.taskQueue, c.read.value.nextEventId - 1, now, None, None),
         failing := w.failing - {lease})
  }

  /** The process dies in the middle of a FailWorkflowTask call. */
  function DoDrop(w: World, lease: Uuid): World
  {
    w.(failing := w.failing - {lease})
  }

  // -------------------------------------------------------- activity task steps

  function DoDequeueActivity(w: World, taskId: nat, ns: int, taskQueue: string, now: int): World
  {
    match DequeueActivityTask(w.db, taskId, ns, taskQueue, now)
    case Commit(db, (token, row)) =>
      w.(db := db, activityTickets := w.activityTickets[token.lease := ActivityTicket(token, row, false)])
    case Rollback(_) => w
  }

  function DoRecordActivityStarted(w: World, lease: Uuid, now: int): World
  {
    if lease !in w.activityTickets || w.activityTickets[lease].recorded then w
    else
      var t := w.activityTickets[lease];
      match RecordActivityTaskStarted(w.db, t.token.key, t.row.activityId, t.row.attempt, now)
      case Commit(db, _) => w.(db := db, activityTickets := w.activityTickets[lease := t.(recorded := true)])
      case Rollback(_) => w
  }

  predicate HasActivityToken(w: World, lease: Uuid)
  {
    lease in w.activityTickets && w.activityTickets[lease].recorded
  }

  function DoCompleteActivity(w: World, lease: Uuid, result: Payload, now: int): World
  {
    if !HasActivityToken(w, lease) then w
    else match CompleteActivityTask(w.db, w.activityTickets[lease].token, result, now)
      case Commit(db, _) => w.(db := db, consumed := w.consumed + [lease])
      case Rollback(_) => w
  }

  /** FailActivityTask reads the row on its own, before deciding what to do. */
  function DoReadActivity(w: World, lease: Uuid): World
  {
    if !HasActivityToken(w, lease) || !HoldsActivityTask(w.db, w.activityTickets[lease].token) then w
    else w.(failReads := w.failReads[lease := w.db.activityTasks[w.activityTickets[lease].token.taskId]])
  }

  function DoFailActivity(w: World, lease: Uuid, failure: Failure, platform: int, now: int): World
  {
    if !HasActivityToken(w, lease) || lease !in w.failReads then w
    else
      var token, row := w.activityTickets[lease].token, w.failReads[lease];
      var tx := if Retryable(row, failure) then RetryActivityTask(w.db, token, Delay(row, platform), now)
                else FailActivityTerminally(w.db, token, row, failure, now);
      match tx
      case Commit(db, _) => w.(db := db, consumed := w.consumed + [lease])
      case Rollback(_) => w
  }

  // ---------------------------------------------------------------------- runs

  function Apply(w: World, s: Step): World
  {
    match s
    case Start(wk, params, now) => After(w, StartWorkflow(w.db, wk, params, now))
    case Dequeue(id, ns, queue, worker, now) => DoDequeue(w, id, ns, queue, worker, now)
    case RecordStarted(lease, now) => DoRecordStarted(w, lease, now)
    case Deliver(lease) => DoDeliver(w, lease)
    case Complete(lease, cmds, sticky, now) => DoComplete(w, lease, cmds, sticky, now)
    case FailDelete(lease) => DoFailDelete(w, lease)
    case FailRead(lease) => DoFailRead(w, lease)
    case FailClear(lease) => DoFailClear(w, lease)
    case FailEnqueue(lease, now) => DoFailEnqueue(w, lease, now)
    case DequeueActivity(id, ns, queue, now) => DoDequeueActivity(w, id, ns, queue, now)
    case RecordActivityStarted(lease, now) => DoRecordActivityStarted(w, lease, now)
    case CompleteActivity(lease, result, now) => DoCompleteActivity(w, lease, result, now)
    case ReadActivity(lease) => DoReadActivity(w, lease)
    case FailActivity(lease, failure, platform, now) => DoFailActivity(w, lease, failure, platform, now)
    case Drop(lease) => DoDrop(w, lease)
    case Reap(now) => w.(db := ReapWorkflowTasks(w.db, now))
    case ReapActivities(now) => w.(db := ReapActivityTasks(w.db, now))
    case Fire(timer, now) => After(w, FireTimer(w.db, timer, now))
    case Signal(wk, runId, name, input, now) => After(w, SignalWorkflow(w.db, wk, runId, name, input, now))
    case Cancel(wk, runId, reason, now) => After(w, RequestCancel(w.db, wk, runId, reason, now))
    case Terminated(wk, runId, reason, now) => After(w, Terminate(w.db, wk, runId, reason, now))
  }

  /** The world after any finite run of steps. */
  function Reach(w: World, steps: seq<Step>): World
  {
    if steps == [] then w else Apply(Reach(w, steps[..|steps| - 1]), steps[|steps| - 1])
  }

  lemma ReachOne(w: World, steps: seq<Step>, s: Step)
    ensures Reach(w, steps + [s]) == Apply(Reach(w, steps), s)
  {
    assert (steps + [s])[..|steps|] == steps;
  }

  lemma {:induction false} ReachConcat(w: World, a: seq<Step>, b: seq<Step>)
    ensures Reach(w, a + b) == Reach(Reach(w, a), b)
  {
    hide Apply;
    if b == [] {
      assert a + b == a;
    } else {
      ReachConcat(w, a, b[..|b| - 1]);
      assert (a + b)[..|a + b| - 1] == a + b[..|b| - 1];
    }
  }
}
