/** The worker's handling of one workflow task: hit, miss, evict. */
module WorkerObject {
  import opened Events
  import opened Replayer
  import opened StickyReplay
  import opened Loading
  import opened Lru
  import opened ExecutionObject

  datatype RunId = RunId(workflowId: string, runId: Uuid)

  /** What stays alive between a run's tasks; `program` is what its goroutine runs. */
  datatype CachedExecution = CachedExecution(exec: Execution, program: Program, lastEventId: int)

  datatype Response = TaskFailed | TaskCompleted(commands: seq<Command>, sticky: bool)

  /** Registered workflows: from a start input to the code, if the input decodes. */
  type Registry = map<string, Payload -> Option<Program>>

  /** What the worker answers when the round ends in `r`: a panic fails the task, and
      otherwise the commands go out, sticky while the workflow is running. */
  ghost predicate Reports(r: Exec, resp: Response)
  {
    if r.phase == Panicked then resp == TaskFailed
    else resp.TaskCompleted? && resp.commands == r.newCommands && (resp.sticky <==> r.phase == Live)
  }

  /** The code a full replay of this history runs, if any. */
  function CodeFor(code: Registry, history: seq<HistoryEvent>): Option<Program>
  {
    match StartOf(history)
    case None => if "" in code then code[""](Payload("")) else None
    case Some((input, workflowType)) => if workflowType in code then code[workflowType](input) else None
  }

  /** A round records an outcome exactly when it finishes. */
  lemma {:induction false} OutcomeIffFinished(p: Program, e: Exec, n: nat)
    requires e.phase == Live && e.result.None? && e.err.None? && e.continuedAsNew.None?
    ensures var r := Run(p, e, n);
      r.phase == Finished <==> r.result.Some? || r.err.Some? || r.continuedAsNew.Some?
  {
    hide Advance;
    if n > 0 {
      OutcomeIffFinished(p, e, n - 1);
      AdvanceOutcome(p, Run(p, e, n - 1));
    }
  }

  lemma AdvanceOutcome(p: Program, e: Exec)
    requires e.phase == Finished <==> e.result.Some? || e.err.Some? || e.continuedAsNew.Some?
    ensures var r := Advance(p, e); r.phase == Finished <==> r.result.Some? || r.err.Some? || r.continuedAsNew.Some?
  {
  }

  lemma {:induction false} TailKeepsLive(e: Exec, events: seq<HistoryEvent>)
    ensures var r := LoadNewEvents(e, events);
      r.phase == e.phase && r.result == e.result && r.err == e.err && r.continuedAsNew == e.continuedAsNew
  {
    TailLoadFrame(e, events);
  }

  lemma StoredMembers<K, V>(c: Recency<K, V>, capacity: int, key: K, v: V)
    ensures forall x :: x in Stored(c, capacity, key, v) ==> x == Entry(key, v) || (x in c && x.key != key)
  {
    WithoutMembers(c, key);
    forall x | x in Stored(c, capacity, key, v) ensures x == Entry(key, v) || (x in c && x.key != key) {
      assert x in [Entry(key, v)] + Without(c, key);
      if x != Entry(key, v) { assert x in Without(c, key); }
    }
  }

  lemma UsedMembers<K, V>(c: Recency<K, V>, key: K)
    ensures forall x :: x in Used(c, key) ==> x in c
    ensures Lookup(c, key).Some? ==> Entry(key, Lookup(c, key).value) in c
  {
    WithoutMembers(c, key);
    forall x | x in Used(c, key) ensures x in c {
      if Lookup(c, key).Some? && x != Entry(key, Lookup(c, key).value) { assert x in Without(c, key); }
    }
  }

  /** Looking a key up first makes no difference to what is stored or dropped. */
  lemma UsedThenStored<V>(c: Recency<RunId, V>, capacity: int, key: RunId)
    ensures Without(Used(c, key), key) == Without(c, key)
    ensures forall v :: Stored(Used(c, key), capacity, key, v) == Stored(c, capacity, key, v)
  {
    hide Without, Lookup;
    if Lookup(c, key).Some? {
      var x := Entry(key, Lookup(c, key).value);
      FrontWithout(x, Without(c, key));
      WithoutMembers(Without(c, key), key);
      AbsentLookup(c, key);
    }
  }

  lemma FrontWithout<K, V>(x: Entry<K, V>, c: Recency<K, V>)
    ensures Without([x] + c, x.key) == Without(c, x.key) && Lookup([x] + c, x.key) == Some(x.value)
  {
    assert ([x] + c)[1..] == c;
  }

  lemma {:induction false} AbsentLookup<K, V>(c: Recency<K, V>, key: K)
    ensures Lookup(Without(c, key), key).None? && Without(Without(c, key), key) == Without(c, key)
    ensures forall x :: x in Without(c, key) ==> x in c && x.key != key
  {
    WithoutMembers(c, key);
    forall x | x in Without(c, key) ensures x in c && x.key != key { }
    WithoutMembers(Without(c, key), key);
  }

  class Worker {
    const cache: ExecutionCache<RunId, CachedExecution>

    /** Every entry has its own Execution, whose coroutine is waiting. */
    ghost predicate Valid()
      reads this, cache, set x | x in cache.Contents() :: x.value.exec
    {
      && cache.Valid()
      && (forall x :: x in cache.Contents() ==> x.value.exec.phase == Live)
      && (forall x, y :: x in cache.Contents() && y in cache.Contents() && x.value.exec == y.value.exec ==> x == y)
    }

    /** Where a round for this task starts, and with which code. */
    ghost function Begin(key: RunId, history: seq<HistoryEvent>, code: Registry): Option<(Program, Exec)>
      reads this, cache, set x | x in cache.Contents() :: x.value.exec
      requires Valid()
    {
      UsedMembers(cache.Contents(), key);
      match Lookup(cache.Contents(), key)
      case Some(c) => Some((c.program, StickyLoad(c.exec.State(), history, c.lastEventId)))
      case None =>
        match CodeFor(code, history)
        case None => None
        case Some(p) => Some((p, FullLoad(history)))
    }

    constructor (capacity: int)
      ensures Valid() && cache.Contents() == [] && fresh(cache)
    {
      cache := new ExecutionCache(capacity);
    }

    /** The suffix of the history with ids above the bookmark. */
    static method EventsAfter(history: seq<HistoryEvent>, lastEventId: int) returns (tail: seq<HistoryEvent>)
      ensures tail == Replayer.EventsAfter(history, lastEventId)
    {
      for i := 0 to |history|
        invariant Replayer.EventsAfter(history, lastEventId) == Replayer.EventsAfter(history[i..], lastEventId)
      {
        if history[i].eventId > lastEventId { return history[i..]; }
        assert history[i..][1..] == history[i + 1..];
      }
      return [];
    }

    /** A cache hit: resume the cached Execution with what it has not seen. */
    method Resume(c: CachedExecution, history: seq<HistoryEvent>, ghost n: nat)
      requires Halted(c.program, Run(c.program, StickyLoad(c.exec.State(), history, c.lastEventId), n))
      modifies c.exec
      ensures c.exec.State() == Run(c.program, StickyLoad(old(c.exec.State()), history, c.lastEventId), n)
    {
      var tail := EventsAfter(history, c.lastEventId);
      c.exec.ResetRoundOutput();
      c.exec.LoadNewEvents(tail);
      c.exec.ExecuteRound(c.program, n);
    }

    /** A miss: a fresh Execution and the whole history. */
    method Replay(history: seq<HistoryEvent>, code: Registry, ghost n: nat) returns (exec: Execution, program: Option<Program>)
      requires CodeFor(code, history).Some? ==>
        Halted(CodeFor(code, history).value, Run(CodeFor(code, history).value, FullLoad(history), n))
      ensures fresh(exec) && program == CodeFor(code, history)
      ensures program.Some? ==> exec.State() == Run(program.value, FullLoad(history), n)
    {
      exec := new Execution();
      var start := exec.LoadHistory(history);
      var input, workflowType := Payload(""), "";
      if start.Some? { input, workflowType := start.value.0, start.value.1; }
      if workflowType !in code { return exec, None; }
      program := code[workflowType](input);
      if program.Some? { exec.ExecuteRound(program.value, n); }
    }

    /** All entries but this key's are as they should be, and none shares `exec`. */
    ghost predicate OthersValid(key: RunId, exec: Execution?)
      reads this, cache, set x | x in cache.Contents() :: x.value.exec
    {
      && cache.Valid()
      && (forall x :: x in cache.Contents() && x.key != key ==> x.value.exec.phase == Live && x.value.exec != exec)
      && (forall x, y :: x in cache.Contents() && y in cache.Contents() && x.key != key && x.value.exec == y.value.exec ==>
            x == y || y.key == key)
    }

    /** Drop the run's entry. */
    method Forget(key: RunId, exec: Execution)
      requires OthersValid(key, exec) && forall x :: x in cache.Contents() ==> allocated(x.value.exec)
      modifies cache
      ensures Valid() && OthersValid(key, exec) && cache.Contents() == Without(old(cache.Contents()), key)
      ensures Lookup(cache.Contents(), key).None?
      ensures forall x :: x in cache.Contents() ==> x in old(cache.Contents()) && x.key != key
    {
      hide Lookup, Without, Linked, Entries;
      ghost var contents := cache.Contents();
      assert forall x :: x in contents ==> x.value.exec as object != cache as object && allocated(x.value.exec);
      AbsentLookup(contents, key);
      cache.Delete(key);
    }

    /** Store the run's entry. */
    method Remember(key: RunId, c: CachedExecution)
      requires OthersValid(key, c.exec) && c.exec.phase == Live && forall x :: x in cache.Contents() ==> allocated(x.value.exec)
      modifies cache
      ensures Valid() && OthersValid(key, c.exec) && cache.Contents() == Stored(old(cache.Contents()), cache.capacity, key, c)
      ensures forall x :: x in cache.Contents() ==> x == Entry(key, c) || (x in old(cache.Contents()) && x.key != key)
    {
      hide Lookup, Without, Stored, Linked, Entries;
      ghost var contents := cache.Contents();
      assert forall x :: x in contents ==> x.value.exec as object != cache as object && allocated(x.value.exec);
      assert c.exec as object != cache as object;
      StoredMembers(contents, cache.capacity, key, c);
      cache.Put(key, c);
    }

    /** After the round: answer, and keep the Execution only if it is still running
        and the server took the answer. */
    method Answer(key: RunId, c: CachedExecution, accepted: bool) returns (resp: Response)
      requires OthersValid(key, c.exec) && forall x :: x in cache.Contents() ==> allocated(x.value.exec)
      requires var r := c.exec.State(); r.phase == Finished <==> r.result.Some? || r.err.Some? || r.continuedAsNew.Some?
      modifies cache
      ensures Valid() && Concluded(key, c.program, c.exec.State(), c.lastEventId, accepted, old(cache.Contents()), resp, c)
    {
      hide Lookup, Without, Stored, Linked, Entries, OthersValid, Valid;
      assert c.exec as object != cache as object;
      AbsentLookup(cache.Contents(), key);
      if c.exec.phase == Panicked {
        Forget(key, c.exec);
        return TaskFailed;
      }
      var running := c.exec.result.None? && c.exec.err.None? && c.exec.continuedAsNew.None?;
      if running { Remember(key, c); } else { Forget(key, c.exec); }
      resp := TaskCompleted(c.exec.newCommands, running);
      if !accepted { Forget(key, c.exec); }
    }

    /** How a round that ended in `r` leaves things, `before` being the cache it found:
        the answer is right; a round that ended, or whose answer was refused, leaves no
        entry; one that is waiting and was accepted is stored; other entries are the
        old ones. */
    ghost predicate Concluded(key: RunId, p: Program, r: Exec, last: int, accepted: bool,
      before: Recency<RunId, CachedExecution>, resp: Response, entry: CachedExecution)
      reads this, cache, entry.exec, set x | x in cache.Contents() :: x.value.exec
    {
      && Reports(r, resp)
      && (r.phase != Live || !accepted ==> Lookup(cache.Contents(), key).None?)
      && (r.phase != Live ==> cache.Contents() == Without(before, key))
      && (r.phase == Live && accepted ==> cache.Contents() == Stored(before, cache.capacity, key, entry))
      && entry.exec.State() == r && entry.program == p && entry.lastEventId == last
      && (forall x :: x in cache.Contents() ==> (x == Entry(key, entry) && r.phase == Live) || (x in before && x.key != key))
    }

    /** Looking the key up first makes no difference. */
    lemma SinceUsed(key: RunId, p: Program, r: Exec, last: int, accepted: bool,
      before: Recency<RunId, CachedExecution>, resp: Response, entry: CachedExecution)
      requires Concluded(key, p, r, last, accepted, Used(before, key), resp, entry)
      ensures Concluded(key, p, r, last, accepted, before, resp, entry)
    {
      hide Stored, Without, Lookup, Used, Entries, Reports;
      UsedThenStored(before, cache.capacity, key);
      UsedMembers(before, key);
    }

    method OnHit(key: RunId, c: CachedExecution, history: seq<HistoryEvent>, accepted: bool, ghost n: nat)
      returns (resp: Response, ghost entry: CachedExecution)
      requires OthersValid(key, c.exec) && c.exec.phase == Live && history != []
      requires forall x :: x in cache.Contents() ==> allocated(x.value.exec)
      requires Halted(c.program, Run(c.program, StickyLoad(c.exec.State(), history, c.lastEventId), n))
      modifies cache, c.exec
      ensures Valid()
      ensures Concluded(key, c.program, Run(c.program, StickyLoad(old(c.exec.State()), history, c.lastEventId), n),
                        history[|history| - 1].eventId, accepted, old(cache.Contents()), resp, entry)
    {
      hide Linked, Entries, Replayer.EventsAfter, StickyLoad, Run, Halted, Stored, Without, Lookup, Reports;
      ghost var contents, before := cache.Contents(), c.exec.State();
      assert forall x :: x in contents ==> x.value.exec as object != cache as object;
      Resume(c, history, n);
      ResumedOutcome(c.program, before, history, c.lastEventId, n);
      entry := c.(lastEventId := history[|history| - 1].eventId);
      resp := Answer(key, c.(lastEventId := history[|history| - 1].eventId), accepted);
    }

    /** processWorkflowTask.  `accepted` is the server's reply to the response, and
        `n` bounds the engine calls of the round. */
    method ProcessWorkflowTask(key: RunId, history: seq<HistoryEvent>, code: Registry, accepted: bool, ghost n: nat)
      returns (resp: Response, ghost entry: Option<CachedExecution>)
      requires Valid() && history != []
      requires var b := Begin(key, history, code); b.Some? ==> Halted(b.value.0, Run(b.value.0, b.value.1, n))
      modifies cache, set x | x in cache.Contents() :: x.value.exec
      ensures Valid()
      ensures match old(Begin(key, history, code))
        case None => resp == TaskFailed && cache.Contents() == old(cache.Contents())
        case Some((p, start)) =>
          entry.Some? && Concluded(key, p, Run(p, start, n), history[|history| - 1].eventId, accepted, old(cache.Contents()), resp, entry.value)
    {
      hide Linked, Entries, Replayer.EventsAfter, StickyLoad, FullLoad, Run, Halted, CodeFor, Stored, Without, Lookup, Reports, Concluded;
      UsedMembers(cache.Contents(), key);
      ghost var contents, cached := cache.Contents(), Lookup(cache.Contents(), key);
      ghost var before := if cached.Some? then cached.value.exec.State() else NewExec();
      assert forall x :: x in contents ==> x.value.exec as object != cache as object;
      var hit := cache.Get(key);
      assert forall x :: x in contents ==> x.value.exec.phase == Live;
      assert hit.Some? ==> hit.value.exec.State() == before;
      var last := history[|history| - 1].eventId;
      if hit.Some? {
        ghost var stored;
        resp, stored := OnHit(key, hit.value, history, accepted, n);
        entry := Some(stored);
        SinceUsed(key, hit.value.program, Run(hit.value.program, StickyLoad(before, history, hit.value.lastEventId), n), last, accepted, contents, resp, stored);
      } else {
        var exec, program := Replay(history, code, n);
        if program.None? { return TaskFailed, None; }
        ReplayedOutcome(program.value, history, n);
        entry := Some(CachedExecution(exec, program.value, last));
        resp := Answer(key, CachedExecution(exec, program.value, last), accepted);
      }
    }
  }

  lemma ResumedOutcome(p: Program, c: Exec, history: seq<HistoryEvent>, last: int, n: nat)
    requires c.phase == Live
    ensures var r := Run(p, StickyLoad(c, history, last), n); r.phase == Finished <==> r.result.Some? || r.err.Some? || r.continuedAsNew.Some?
  {
    TailKeepsLive(ResetRoundOutput(c), Replayer.EventsAfter(history, last));
    OutcomeIffFinished(p, StickyLoad(c, history, last), n);
  }

  lemma ReplayedOutcome(p: Program, history: seq<HistoryEvent>, n: nat)
    ensures var r := Run(p, FullLoad(history), n); r.phase == Finished <==> r.result.Some? || r.err.Some? || r.continuedAsNew.Some?
  {
    LoadLeavesUnstarted(NewExec(), history);
    OutcomeIffFinished(p, FullLoad(history), n);
  }

  /** The code is the one registered for the type of the last recorded start, given its
      input; a history without a start has the empty type. */
  lemma CodeMeans(code: Registry, history: seq<HistoryEvent>, i: int)
    ensures LastOf(history, i, IsStart) ==>
      var a := history[i].attributes;
      CodeFor(code, history) == if a.workflowType in code then code[a.workflowType](a.input) else None
    ensures !Has(history, IsStart) && "" !in code ==> CodeFor(code, history) == None
  {
    StartLoaded(history);
  }
}
