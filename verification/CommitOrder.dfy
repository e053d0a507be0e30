/** Every interleaving is a serial execution, and what that means for histories, for
    writers and for signals. */
module CommitOrder {
  import opened Events
  import opened Store
  import opened Soundness
  import opened CompareAndSet

  /** Every interleaving is serializable: the committed runs and task rows are what
      the committed transactions give when run one at a time, in commit order; a lost
      or aborted transaction leaves no trace. */
  lemma {:induction false} EveryInterleavingIsSerial(c0: Cluster, moves: seq<Move>)
    requires Initial(c0)
    ensures Inv(c0, Interleave(c0, moves))
  {
    hide Inv, Initial, DoRead, DoCompare, DoCommit, DoAbort;
    if moves == [] {
      InitialInv(c0);
    } else {
      var c := Interleave(c0, moves[..|moves| - 1]);
      EveryInterleavingIsSerial(c0, moves[..|moves| - 1]);
      match moves[|moves| - 1] {
        case Read(w, key) => if w in c.writers { ReadInv(c0, c, w, key); }
        case Compare(w) => if w in c.writers { CompareInv(c0, c, w); }
        case CommitTx(w, now) => if w in c.writers { CommitInv(c0, c, w, now); }
        case Abort(w) => if w in c.writers { AbortInv(c0, c, w); }
      }
    }
  }

  // ------------------------------------------------------------------ what it means

  /** Each run's committed event ids are exactly 1 .. next_event_id - 1, and its
      history extends what it was at any earlier commit. */
  lemma CommittedHistoriesAreDense(c0: Cluster, moves: seq<Move>, key: RunKey, n: nat)
    requires Initial(c0) && key in c0.runs && n <= |Interleave(c0, moves).log|
    ensures var c := Interleave(c0, moves);
      && key in c.runs && GoodRun(c.runs[key])
      && key in Serial(c0, c.log[..n]) && Serial(c0, c.log[..n])[key].history <= c.runs[key].history
  {
    var c := Interleave(c0, moves);
    EveryInterleavingIsSerial(c0, moves);
    SerialGood(c0, c.log);
    SerialGrows(c0, c.log, n, key);
  }

  /** Of the writers that read the same next_event_id of a run at most one commits:
      the writers of two commits to a run had read different values, the later the
      larger. */
  lemma OneWinnerPerValue(c0: Cluster, moves: seq<Move>, i: nat, j: nat)
    requires Initial(c0)
    requires var log := Interleave(c0, moves).log; i < j < |log| && log[i].key == log[j].key
    ensures Interleave(c0, moves).log[i].base < Interleave(c0, moves).log[j].base
  {
    hide Serial, Interleave, Initial;
    var log := Interleave(c0, moves).log;
    EveryInterleavingIsSerial(c0, moves);
    ValidPrefix(c0, log, j);
    assert log[..j][..i] == log[..i] && log[..j][i].key == log[j].key;
    assert log[j].key in Serial(c0, log[..j]);
    SerialGood(c0, log[..j]);
    assert Touched(log[..j], i, log[j].key);
    SerialGrows(c0, log[..j], i, log[j].key);
  }

  lemma ValidPrefix(c0: Cluster, log: seq<Entry>, j: nat)
    requires ValidLog(c0, log) && j <= |log|
    ensures ValidLog(c0, log[..j])
  {
    assert forall n :: 0 <= n <= j ==> log[..j][..n] == log[..n];
  }

  /** A writer commits exactly once if its loop ends well and never otherwise, within
      its limit of tries; and it runs out of tries only if at least that many other
      commits got in its way. */
  lemma OnceOrNotAtAll(c0: Cluster, moves: seq<Move>, w: int)
    requires Initial(c0) && w in c0.writers
    ensures var c := Interleave(c0, moves);
      && w in c.writers && c.writers[w].tries <= c.writers[w].limit == c0.writers[w].limit
      && Wins(c.log, w) == (if c.writers[w].phase == Committed then 1 else 0)
      && (c.writers[w].phase == Conflicted ==> c0.writers[w].limit <= |c.log|)
  {
    EveryInterleavingIsSerial(c0, moves);
    assert WriterInv(c0, Interleave(c0, moves), w);
  }

  /** A writer that nobody gets in the way of commits: its events are in the run, its
      task row is there, and the lock is gone. */
  lemma UndisturbedCommits(c: Cluster, w: int, key: RunKey, now: int)
    requires w in c.writers && c.writers[w].phase == Ready && key in c.runs && key !in c.locks
    requires c.writers[w].writes(c.runs[key]) != []
    ensures var c' := Do(Do(Do(c, Read(w, key)), Compare(w)), CommitTx(w, now));
      && c'.runs == c.runs[key := Extended(c.runs[key], c.writers[w].writes(c.runs[key]), now)]
      && c'.writers[w].phase == Committed && c'.locks == c.locks && |c'.log| == |c.log| + 1
      && c'.tasks == c.tasks + (if c.writers[w].wakes then [(key, c.runs[key].nextEventId + |c.writers[w].writes(c.runs[key])| - 1)] else [])
  {
    var c1 := Do(c, Read(w, key));
    assert c1 == SetPhase(c, w, Reading(key, c.runs[key], |c.log|));
    var c2 := Do(c1, Compare(w));
    assert c2.writers[w].phase == Holding(key, c.runs[key]) && c2.locks == c.locks[key := w] && c2.runs == c.runs;
    assert c2.locks - {key} == c.locks;
  }

  /** A writer whose run was written since it read it does not commit, and starts over
      while it has tries left. */
  lemma OvertakenConflicts(c: Cluster, w: int)
    requires w in c.writers && c.writers[w].phase.Reading? && c.writers[w].writes(c.writers[w].phase.row) != []
    requires var at := c.writers[w].phase; at.key in c.runs && at.key !in c.locks && c.runs[at.key].nextEventId != at.row.nextEventId
    ensures var me, me' := c.writers[w], Do(c, Compare(w)).writers[w];
      && Do(c, Compare(w)) == c.(writers := c.writers[w := me']) && me'.tries == me.tries + 1
      && me'.phase == (if me.tries + 1 < me.limit then Ready else Conflicted)
  {
  }

  /** Losing the compare-and-set changes no run, no task row and no lock. */
  lemma LosersChangeNothing(c: Cluster, m: Move)
    requires !m.CommitTx?
    ensures Do(c, m).runs == c.runs && Do(c, m).tasks == c.tasks && Do(c, m).log == c.log
  {
  }

  // ---------------------------------------------------------------------- signals

  /** SignalWorkflowExecution as a writer. */
  function Signaller(name: string, input: Payload): Writer
  {
    Writer((row: Run) => [WorkflowExecutionSignaled(name, input), WorkflowTaskScheduled(row.taskQueue)],
           true, MAX_CONCURRENT_MODIFICATION_RETRIES, 0, Ready)
  }

  /** Commit n is the signal's: its two events were appended together to the run as
      it then was, and a task was enqueued for the second. */
  ghost predicate SignalledAt(c0: Cluster, c: Cluster, n: nat, w: int, name: string, input: Payload)
  {
    n < |c.log| && c.log[n].writer == w &&
    var key, before, after := c.log[n].key, Serial(c0, c.log[..n]), Serial(c0, c.log[..n + 1]);
    && key in before && key in after
    && after[key] == Extended(before[key], [WorkflowExecutionSignaled(name, input), WorkflowTaskScheduled(before[key].taskQueue)], c.log[n].now)
    && (key, before[key].nextEventId + 1) in c.tasks
  }

  lemma {:induction false} WinnerHasEntry(log: seq<Entry>, w: int) returns (n: nat)
    requires Wins(log, w) > 0
    ensures n < |log| && log[n].writer == w
  {
    if log[|log| - 1].writer == w { n := |log| - 1; } else { n := WinnerHasEntry(log[..|log| - 1], w); }
  }

  lemma {:induction false} EntryHasTask(c0: Cluster, log: seq<Entry>, n: nat)
    requires n < |log| && log[n].writer in c0.writers && c0.writers[log[n].writer].wakes && log[n].key in Serial(c0, log[..n + 1])
    ensures (log[n].key, Serial(c0, log[..n + 1])[log[n].key].nextEventId - 1) in SerialTasks(c0, log)
  {
    if n < |log| - 1 {
      var pre := log[..|log| - 1];
      assert pre[..n + 1] == log[..n + 1];
      EntryHasTask(c0, pre, n);
    } else {
      assert log[..n + 1] == log;
    }
  }

  /** However the five attempts of a signal interleave with other writers, its pair of
      events and its task are committed exactly once or not at all. */
  lemma SignalOnceOrNotAtAll(c0: Cluster, moves: seq<Move>, w: int, name: string, input: Payload)
    requires Initial(c0) && w in c0.writers && c0.writers[w] == Signaller(name, input)
    ensures var c := Interleave(c0, moves);
      if w in c.writers && c.writers[w].phase == Committed
      then Wins(c.log, w) == 1 && exists n: nat :: SignalledAt(c0, c, n, w, name, input)
      else Wins(c.log, w) == 0
  {
    hide Interleave, Serial, SerialTasks, Wins, Initial, WriterInv, Extended;
    var c := Interleave(c0, moves);
    EveryInterleavingIsSerial(c0, moves);
    OnceOrNotAtAll(c0, moves, w);
    if c.writers[w].phase == Committed {
      var n := WinnerHasEntry(c.log, w);
      assert c.log[n].key in Serial(c0, c.log[..n]);
      assert c.log[..n + 1] == c.log[..n] + [c.log[n]];
      SerialStep(c0, c.log[..n], c.log[n]);
      EntryHasTask(c0, c.log, n);
      PairAdvances(Serial(c0, c.log[..n])[c.log[n].key], name, input, c.log[n].now);
      assert SignalledAt(c0, c, n, w, name, input);
    }
  }

  lemma PairAdvances(run: Run, name: string, input: Payload, now: int)
    ensures Extended(run, [WorkflowExecutionSignaled(name, input), WorkflowTaskScheduled(run.taskQueue)], now).nextEventId == run.nextEventId + 2
  {
  }
}
