/** Each step of the store does its statement or transaction whenever it can. */
module Steps {
  import opened Events
  import opened Store
  import opened Backoff
  import opened World

  /** The tables after a transaction. */
  ghost predicate Does<T>(db: Db, tx: Tx<T>, db': Db)
  {
    db' == match tx case Commit(after, _) => after case Rollback(_) => db
  }

  lemma RequestSteps(w: World, s: Step)
    ensures match s
      case Start(wk, params, now) => Does(w.db, StartWorkflow(w.db, wk, params, now), Apply(w, s).db)
      case Fire(timer, now) => Does(w.db, FireTimer(w.db, timer, now), Apply(w, s).db)
      case Signal(wk, runId, name, input, now) => Does(w.db, SignalWorkflow(w.db, wk, runId, name, input, now), Apply(w, s).db)
      case Cancel(wk, runId, reason, now) => Does(w.db, RequestCancel(w.db, wk, runId, reason, now), Apply(w, s).db)
      case Terminated(wk, runId, reason, now) => Does(w.db, Terminate(w.db, wk, runId, reason, now), Apply(w, s).db)
      case Reap(now) => Apply(w, s).db == ReapWorkflowTasks(w.db, now)
      case ReapActivities(now) => Apply(w, s).db == ReapActivityTasks(w.db, now)
      case _ => true
  {
    hide StartWorkflow, FireTimer, SignalWorkflow, RequestCancel, Terminate, ReapWorkflowTasks, ReapActivityTasks;
  }

  /** Dispatching a workflow task: lease, record, deliver. */
  lemma DispatchSteps(w: World, s: Step)
    ensures match s
      case Dequeue(id, ns, queue, worker, now) =>
        var tx := DequeueWorkflowTask(w.db, id, ns, queue, worker, now);
        && Does(w.db, tx, Apply(w, s).db)
        && (tx.Commit? ==> Apply(w, s).tickets == w.tickets[tx.value.lease := Ticket(tx.value, Leased)])
      case RecordStarted(l, now) =>
        l in w.tickets && w.tickets[l].progress == Leased && w.tickets[l].token.key in w.db.runs ==>
          && Does(w.db, RecordWorkflowTaskStarted(w.db, w.tickets[l].token.key, now), Apply(w, s).db)
          && Apply(w, s).tickets == w.tickets[l := Ticket(w.tickets[l].token, Recorded)]
      case Deliver(l) =>
        l in w.tickets && w.tickets[l].progress == Recorded && w.tickets[l].token.key in w.db.runs ==>
          && Apply(w, s).db == w.db
          && Apply(w, s).tickets == w.tickets[l := Ticket(w.tickets[l].token, Delivered(Fetch(w.db.runs[w.tickets[l].token.key].history)))]
      case _ => true
  {
    hide DequeueWorkflowTask, Append, Fetch;
  }

  /** A worker with its token may answer, and a committed answer is booked. */
  lemma AnswerSteps(w: World, s: Step)
    ensures s.Complete? && s.lease in w.tickets && w.tickets[s.lease].progress.Delivered? ==>
      var t := w.tickets[s.lease];
      var tx := CompleteWorkflowTask(w.db, t.token, s.commands, s.sticky, s.now);
      && Does(w.db, tx, Apply(w, s).db)
      && (tx.Commit? ==>
            && Apply(w, s).consumed == w.consumed + [s.lease]
            && Apply(w, s).accepted == w.accepted + [Acceptance(t.token, t.progress.history, s.commands)])
  {
    hide CompleteWorkflowTask;
  }

  lemma ActivitySteps(w: World, s: Step)
    ensures match s
      case DequeueActivity(id, ns, queue, now) =>
        var tx := DequeueActivityTask(w.db, id, ns, queue, now);
        && Does(w.db, tx, Apply(w, s).db)
        && (tx.Commit? ==> Apply(w, s).activityTickets == w.activityTickets[tx.value.0.lease := ActivityTicket(tx.value.0, tx.value.1, false)])
      case RecordActivityStarted(l, now) =>
        l in w.activityTickets && !w.activityTickets[l].recorded && w.activityTickets[l].token.key in w.db.runs ==>
          var t := w.activityTickets[l];
          && Does(w.db, RecordActivityTaskStarted(w.db, t.token.key, t.row.activityId, t.row.attempt, now), Apply(w, s).db)
          && Apply(w, s).activityTickets == w.activityTickets[l := ActivityTicket(t.token, t.row, true)]
      case CompleteActivity(l, result, now) =>
        l in w.activityTickets && w.activityTickets[l].recorded ==>
          Does(w.db, CompleteActivityTask(w.db, w.activityTickets[l].token, result, now), Apply(w, s).db)
      case _ => true
  {
    hide DequeueActivityTask, Append, CompleteActivityTask;
  }

  /** A reported failure reads the leased row, and then retries or gives up by it. */
  lemma FailActivitySteps(w: World, s: Step)
    ensures match s
      case ReadActivity(l) =>
        l in w.activityTickets && w.activityTickets[l].recorded ==>
          var token := w.activityTickets[l].token;
          token.taskId in w.db.activityTasks && w.db.activityTasks[token.taskId].lease == Some(token.lease) ==>
            Apply(w, s).failReads == w.failReads[l := w.db.activityTasks[token.taskId]]
      case FailActivity(l, failure, platform, now) =>
        l in w.activityTickets && w.activityTickets[l].recorded && l in w.failReads ==>
          var token, row := w.activityTickets[l].token, w.failReads[l];
          if (row.maxAttempts == 0 || row.attempt < row.maxAttempts) && failure.kind !in row.nonRetryable
          then Does(w.db, RetryActivityTask(w.db, token, Delay(row, platform), now), Apply(w, s).db)
          else Does(w.db, FailActivityTerminally(w.db, token, row, failure, now), Apply(w, s).db)
      case _ => true
  {
    hide RetryActivityTask, FailActivityTerminally, Delay;
  }

  /** FailWorkflowTask's statements one after the other, undisturbed: the leased row is
      gone, the run has lost its stickiness, there is an unreserved pending row for its
      last event, and the call is over. */
  lemma FailWorkflowTaskSteps(w: World, l: Uuid, now: int)
    requires HasToken(w, l) && HoldsWorkflowTask(w.db, w.tickets[l].token) && w.tickets[l].token.key in w.db.runs
    ensures var token := w.tickets[l].token;
      var w' := Apply(Apply(Apply(Apply(w, FailDelete(l)), FailRead(l)), FailClear(l)), FailEnqueue(l, now));
      var run := w.db.runs[token.key];
      && w'.db == w.db.(
           runs := w.db.runs[token.key := run.(stickyWorker := None, stickyExpires := None)],
           workflowTasks := (w.db.workflowTasks - {token.taskId})[w.db.nextTaskId :=
             WorkflowTask(token.key, run.taskQueue, run.nextEventId - 1, now, None, None, false, None, None)],
           nextTaskId := w.db.nextTaskId + 1)
      && l !in w'.failing && w'.consumed == w.consumed + [l]
  {
    hide DoFailDelete, DoFailRead, DoFailClear, DoFailEnqueue;
    var w1 := DoFailDelete(w, l);
    DeleteStatement(w, l);
    var w2 := DoFailRead(w1, l);
    ReadAndClear(w1, l);
    EnqueueStatement(DoFailClear(w2, l), l, now);
  }

  lemma DeleteStatement(w: World, l: Uuid)
    requires HasToken(w, l) && HoldsWorkflowTask(w.db, w.tickets[l].token)
    ensures var token, w' := w.tickets[l].token, DoFailDelete(w, l);
      && l in w'.failing && w'.failing[l].token == token && w'.failing[l].read == None && !w'.failing[l].cleared
      && w'.db == w.db.(workflowTasks := w.db.workflowTasks - {token.taskId}) && w'.consumed == w.consumed + [l]
  {
  }

  lemma ReadAndClear(w: World, l: Uuid)
    requires l in w.failing && w.failing[l].read == None && !w.failing[l].cleared && w.failing[l].token.key in w.db.runs
    ensures var w', key := DoFailClear(DoFailRead(w, l), l), w.failing[l].token.key;
      && l in w'.failing && w'.failing[l] == w.failing[l].(read := Some(w.db.runs[key]), cleared := true)
      && w'.db == w.db.(runs := w.db.runs[key := w.db.runs[key].(stickyWorker := None, stickyExpires := None)])
      && w'.consumed == w.consumed
  {
  }

  lemma EnqueueStatement(w: World, l: Uuid, now: int)
    requires l in w.failing && w.failing[l].read.Some? && w.failing[l].cleared
    ensures var w', c := DoFailEnqueue(w, l, now), w.failing[l];
      && l !in w'.failing && w'.consumed == w.consumed
      && w'.db == w.db.(
           workflowTasks := w.db.workflowTasks[w.db.nextTaskId :=
             WorkflowTask(c.token.key, c.read.value.taskQueue, c.read.value.nextEventId - 1, now, None, None, false, None, None)],
           nextTaskId := w.db.nextTaskId + 1)
  {
  }
}
