/** Mechanism B: any number of writers read a run, compare-and-set its
    next_event_id and commit or abort, interleaved in any way.  The UPDATE holds the
    run's row lock until the transaction ends; readers see committed rows only. */
module CompareAndSet {
  import opened Events
  import opened Store
  import opened Soundness

  /** Where a writer is: between transactions, with the row it read, with the row
      locked and its inserts uncommitted, or finished.  `seen` is how many commits
      preceded the read. */
  datatype Phase = Ready | Reading(key: RunKey, row: Run, seen: nat) | Holding(key: RunKey, row: Run)
                 | Committed | Skipped | Conflicted | Failed

  /** A writer appends what it makes of the row it reads, and may enqueue a workflow
      task for the last event.  After a conflict it starts over, `limit` times in all:
      5 for signals and cancel requests, 1 for everyone else. */
  datatype Writer = Writer(writes: Run -> seq<Attributes>, wakes: bool, limit: nat, tries: nat, phase: Phase)

  const MAX_CONCURRENT_MODIFICATION_RETRIES: nat := 5

  /** A commit: who, to which run, when, and the next_event_id the writer had read. */
  datatype Entry = Entry(writer: int, key: RunKey, now: int, base: int)

  /** The committed runs and task rows, the row locks, and who committed, in order. */
  datatype Cluster = Cluster(
    runs: map<RunKey, Run>, tasks: seq<(RunKey, int)>, locks: map<RunKey, int>, writers: map<int, Writer>, log: seq<Entry>)

  datatype Move = Read(writer: int, key: RunKey) | Compare(writer: int) | CommitTx(writer: int, now: int) | Abort(writer: int)

  function SetPhase(c: Cluster, w: int, phase: Phase): Cluster
    requires w in c.writers
  {
    c.(writers := c.writers[w := c.writers[w].(phase := phase)])
  }

  function DoRead(c: Cluster, w: int, key: RunKey): Cluster
    requires w in c.writers
  {
    if c.writers[w].phase != Ready then c
    else if key !in c.runs then SetPhase(c, w, Failed)
    else SetPhase(c, w, Reading(key, c.runs[key], |c.log|))
  }

  /** The UPDATE ... WHERE next_event_id = expected; it waits while the row is locked. */
  function DoCompare(c: Cluster, w: int): Cluster
    requires w in c.writers
  {
    var me := c.writers[w];
    if !me.phase.Reading? then c
    else if me.writes(me.phase.row) == [] then SetPhase(c, w, Skipped)
    else if me.phase.key in c.locks || me.phase.key !in c.runs then c
    else if c.runs[me.phase.key].nextEventId == me.phase.row.nextEventId then
      SetPhase(c, w, Holding(me.phase.key, me.phase.row)).(locks := c.locks[me.phase.key := w])
    else
      c.(writers := c.writers[w := me.(tries := me.tries + 1, phase := if me.tries + 1 < me.limit then Ready else Conflicted)])
  }

  function DoCommit(c: Cluster, w: int, now: int): Cluster
    requires w in c.writers
  {
    var me := c.writers[w];
    if !me.phase.Holding? || me.phase.key !in c.runs then c
    else
      var key, run := me.phase.key, c.runs[me.phase.key];
      var run' := Extended(run, me.writes(me.phase.row), now);
      Cluster(c.runs[key := run'], c.tasks + if me.wakes then [(key, run'.nextEventId - 1)] else [], c.locks - {key},
              SetPhase(c, w, Committed).writers, c.log + [Entry(w, key, now, me.phase.row.nextEventId)])
  }

  function DoAbort(c: Cluster, w: int): Cluster
    requires w in c.writers
  {
    match c.writers[w].phase
    case Reading(_, _, _) => SetPhase(c, w, Failed)
    case Holding(key, _) => SetPhase(c, w, Failed).(locks := c.locks - {key})
    case _ => c
  }

  function Do(c: Cluster, m: Move): Cluster
  {
    if m.writer !in c.writers then c
    else match m
      case Read(w, key) => DoRead(c, w, key)
      case Compare(w) => DoCompare(c, w)
      case CommitTx(w, now) => DoCommit(c, w, now)
      case Abort(w) => DoAbort(c, w)
  }

  function Interleave(c: Cluster, moves: seq<Move>): Cluster
  {
    if moves == [] then c else Do(Interleave(c, moves[..|moves| - 1]), moves[|moves| - 1])
  }

  ghost predicate Initial(c: Cluster)
  {
    && c.tasks == [] && c.locks == map[] && c.log == []
    && (forall k :: k in c.runs ==> GoodRun(c.runs[k]))
    && (forall w :: w in c.writers ==> c.writers[w].phase == Ready && c.writers[w].tries == 0 && c.writers[w].limit >= 1)
  }

  // ----------------------------------------------------------- the serial execution

  /** One writer's whole transaction, alone: read the run and append to it. */
  function Alone(c0: Cluster, runs: map<RunKey, Run>, e: Entry): map<RunKey, Run>
  {
    if e.key in runs && e.writer in c0.writers
    then runs[e.key := Extended(runs[e.key], c0.writers[e.writer].writes(runs[e.key]), e.now)]
    else runs
  }

  function Serial(c0: Cluster, log: seq<Entry>): map<RunKey, Run>
  {
    if log == [] then c0.runs else Alone(c0, Serial(c0, log[..|log| - 1]), log[|log| - 1])
  }

  function SerialTasks(c0: Cluster, log: seq<Entry>): seq<(RunKey, int)>
  {
    if log == [] then []
    else
      var e, runs := log[|log| - 1], Serial(c0, log);
      SerialTasks(c0, log[..|log| - 1]) +
      if e.writer in c0.writers && c0.writers[e.writer].wakes && e.key in runs then [(e.key, runs[e.key].nextEventId - 1)] else []
  }

  /** Every entry is a writer that had something to append to a run. */
  ghost predicate ValidLog(c0: Cluster, log: seq<Entry>)
  {
    forall n :: 0 <= n < |log| ==>
      && log[n].writer in c0.writers && log[n].key in Serial(c0, log[..n])
      && c0.writers[log[n].writer].writes(Serial(c0, log[..n])[log[n].key]) != []
  }

  /** Every commit was based on the value the run's counter had at that point. */
  ghost predicate BasesCurrent(c0: Cluster, log: seq<Entry>)
  {
    forall n :: 0 <= n < |log| ==>
      log[n].key in Serial(c0, log[..n]) && log[n].base == Serial(c0, log[..n])[log[n].key].nextEventId
  }

  lemma SerialStep(c0: Cluster, log: seq<Entry>, e: Entry)
    ensures Serial(c0, log + [e]) == Alone(c0, Serial(c0, log), e)
  {
    assert (log + [e])[..|log|] == log;
  }

  lemma {:induction false} SerialGood(c0: Cluster, log: seq<Entry>)
    requires ValidLog(c0, log) && Initial(c0)
    ensures Serial(c0, log).Keys == c0.runs.Keys
    ensures forall k :: k in c0.runs ==> GoodRun(Serial(c0, log)[k])
  {
    hide ValidLog, GoodRun;
    if log != [] {
      ShorterValid(c0, log);
      SerialGood(c0, log[..|log| - 1]);
      forall k | k in c0.runs ensures k in Serial(c0, log) && GoodRun(Serial(c0, log)[k]) { LastEntry(c0, log, k); }
      LastKeys(c0, log);
    }
  }

  lemma LastKeys(c0: Cluster, log: seq<Entry>)
    requires log != []
    ensures Serial(c0, log).Keys == Serial(c0, log[..|log| - 1]).Keys
  {
  }

  ghost predicate Touched(log: seq<Entry>, n: nat, key: RunKey)
  {
    exists i :: n <= i < |log| && log[i].key == key
  }

  /** Between two points of the log a run only grows, and its counter tells whether
      it has been written at all. */
  lemma {:induction false} SerialGrows(c0: Cluster, log: seq<Entry>, n: nat, key: RunKey)
    requires ValidLog(c0, log) && Initial(c0) && n <= |log| && key in c0.runs
    ensures key in Serial(c0, log[..n]) && key in Serial(c0, log)
    ensures var a, b := Serial(c0, log[..n])[key], Serial(c0, log)[key];
      && a.history <= b.history && a.nextEventId <= b.nextEventId
      && if Touched(log, n, key) then a.nextEventId < b.nextEventId else a == b
    decreases |log|
  {
    hide ValidLog, GoodRun, Serial, Initial;
    SerialGood(c0, log);
    if n == |log| {
      assert log[..n] == log;
    } else {
      var pre := log[..|log| - 1];
      ShorterValid(c0, log);
      SerialGood(c0, pre);
      assert pre[..n] == log[..n];
      SerialGrows(c0, pre, n, key);
      LastEntry(c0, log, key);
      TouchedStep(log, n, key);
    }
  }

  lemma TouchedStep(log: seq<Entry>, n: nat, key: RunKey)
    requires n < |log|
    ensures Touched(log, n, key) <==> Touched(log[..|log| - 1], n, key) || log[|log| - 1].key == key
  {
    var pre := log[..|log| - 1];
    if i :| n <= i < |pre| && pre[i].key == key { assert log[i].key == key; }
    if i :| n <= i < |log| && log[i].key == key && i < |pre| { assert pre[i].key == key; }
  }

  lemma ShorterValid(c0: Cluster, log: seq<Entry>)
    requires ValidLog(c0, log) && log != []
    ensures ValidLog(c0, log[..|log| - 1])
  {
    var pre := log[..|log| - 1];
    assert forall n :: 0 <= n <= |pre| ==> pre[..n] == log[..n];
  }

  lemma LastEntry(c0: Cluster, log: seq<Entry>, key: RunKey)
    requires ValidLog(c0, log) && log != []
    requires var runs := Serial(c0, log[..|log| - 1]); key in runs ==> GoodRun(runs[key])
    ensures var runs, runs' := Serial(c0, log[..|log| - 1]), Serial(c0, log);
      && runs'.Keys == runs.Keys
      && (key in runs ==>
            && GoodRun(runs'[key]) && runs[key].history <= runs'[key].history
            && (if log[|log| - 1].key == key then runs[key].nextEventId < runs'[key].nextEventId else runs'[key] == runs[key]))
  {
    var n := |log| - 1;
    var e, runs := log[n], Serial(c0, log[..n]);
    assert e.writer in c0.writers && e.key in runs;
    ExtendedMore(runs[e.key], c0.writers[e.writer].writes(runs[e.key]), e.now);
  }

  lemma ExtendedMore(run: Run, attrs: seq<Attributes>, now: int)
    ensures run.history <= Extended(run, attrs, now).history
    ensures GoodRun(run) ==> GoodRun(Extended(run, attrs, now))
    ensures attrs != [] ==> run.nextEventId < Extended(run, attrs, now).nextEventId
  {
  }

  // ------------------------------------------------------------------- the invariant

  /** How many commits of the log are this writer's. */
  function Wins(log: seq<Entry>, w: int): nat
  {
    if log == [] then 0 else Wins(log[..|log| - 1], w) + if log[|log| - 1].writer == w then 1 else 0
  }

  ghost predicate WriterInv(c0: Cluster, c: Cluster, w: int)
    requires w in c.writers
  {
    var me := c.writers[w];
    && w in c0.writers && me == c0.writers[w].(tries := me.tries, phase := me.phase)
    && Wins(c.log, w) == (if me.phase == Committed then 1 else 0)
    && me.tries <= |c.log| && (if me.phase == Conflicted then me.tries == me.limit else me.tries < me.limit)
    && (me.phase.Reading? ==>
          && me.tries <= me.phase.seen <= |c.log| && me.phase.key in c0.runs
          && me.phase.key in Serial(c0, c.log[..me.phase.seen]) && me.phase.row == Serial(c0, c.log[..me.phase.seen])[me.phase.key])
    && (me.phase.Holding? ==>
          && me.phase.key in c.locks && c.locks[me.phase.key] == w && me.phase.key in c.runs
          && c.runs[me.phase.key] == me.phase.row && me.writes(me.phase.row) != [])
  }

  ghost predicate Inv(c0: Cluster, c: Cluster)
  {
    && ValidLog(c0, c.log) && BasesCurrent(c0, c.log) && c.runs == Serial(c0, c.log) && c.tasks == SerialTasks(c0, c.log)
    && c.writers.Keys == c0.writers.Keys && (forall w :: w in c.writers ==> WriterInv(c0, c, w))
    && (forall k :: k in c.locks ==> c.locks[k] in c.writers && c.writers[c.locks[k]].phase.Holding? && c.writers[c.locks[k]].phase.key == k)
  }

  lemma InitialInv(c0: Cluster)
    requires Initial(c0)
    ensures Inv(c0, c0)
  {
  }

  /** Nothing is committed by the move: only its writer is to be looked at. */
  lemma Uncommitted(c0: Cluster, c: Cluster, c': Cluster, w: int)
    requires Inv(c0, c) && w in c.writers && c'.runs == c.runs && c'.tasks == c.tasks && c'.log == c.log
    requires c'.writers.Keys == c.writers.Keys && (forall v :: v in c.writers && v != w ==> c'.writers[v] == c.writers[v])
    requires WriterInv(c0, c', w)
    requires forall k :: k in c.locks && c.locks[k] != w ==> k in c'.locks && c'.locks[k] == c.locks[k]
    requires forall k :: k in c'.locks && c'.locks[k] != w ==> k in c.locks && c'.locks[k] == c.locks[k]
    requires forall k :: k in c'.locks && c'.locks[k] == w ==> c'.writers[w].phase.Holding? && c'.writers[w].phase.key == k
    ensures Inv(c0, c')
  {
    hide ValidLog, BasesCurrent, Serial, SerialTasks, Wins;
    forall v | v in c'.writers ensures WriterInv(c0, c', v) {
      if v != w { assert WriterInv(c0, c, v); }
    }
  }

  lemma ReadInv(c0: Cluster, c: Cluster, w: int, key: RunKey)
    requires Inv(c0, c) && w in c.writers && Initial(c0)
    ensures Inv(c0, DoRead(c, w, key))
  {
    hide ValidLog, BasesCurrent, Serial, SerialTasks, Wins;
    assert WriterInv(c0, c, w);
    if DoRead(c, w, key) != c {
      SerialGood(c0, c.log);
      assert c.log[..|c.log|] == c.log;
      Uncommitted(c0, c, DoRead(c, w, key), w);
    }
  }

  /** Passing the comparison means the run is still as it was read; failing it
      means somebody has committed since. */
  lemma CompareWriter(c0: Cluster, c: Cluster, w: int)
    requires Inv(c0, c) && w in c.writers && Initial(c0)
    ensures WriterInv(c0, DoCompare(c, w), w)
  {
    hide ValidLog, BasesCurrent, Serial, SerialTasks, Wins, Initial;
    assert WriterInv(c0, c, w);
    var at := c.writers[w].phase;
    if at.Reading? {
      SerialGrows(c0, c.log, at.seen, at.key);
      if at.seen == |c.log| { assert c.log[..at.seen] == c.log; }
    }
  }

  lemma CompareInv(c0: Cluster, c: Cluster, w: int)
    requires Inv(c0, c) && w in c.writers && Initial(c0)
    ensures Inv(c0, DoCompare(c, w))
  {
    CompareWriter(c0, c, w);
    CompareFrame(c, w);
    hide DoCompare, ValidLog, BasesCurrent, Serial, SerialTasks, WriterInv, Initial;
    if DoCompare(c, w) != c { NoLockWhileReading(c0, c, w); Uncommitted(c0, c, DoCompare(c, w), w); }
  }

  lemma NoLockWhileReading(c0: Cluster, c: Cluster, w: int)
    requires Inv(c0, c) && w in c.writers && c.writers[w].phase.Reading?
    ensures forall k :: k in c.locks ==> c.locks[k] != w
  {
  }

  lemma CompareFrame(c: Cluster, w: int)
    requires w in c.writers
    ensures var c' := DoCompare(c, w);
      && c'.runs == c.runs && c'.tasks == c.tasks && c'.log == c.log && c'.writers.Keys == c.writers.Keys
      && (forall v :: v in c.writers && v != w ==> c'.writers[v] == c.writers[v])
      && (c' != c ==> c.writers[w].phase.Reading?)
      && (c'.locks == c.locks || (c'.writers[w].phase.Holding? && c'.writers[w].phase.key !in c.locks
                                  && c'.locks == c.locks[c'.writers[w].phase.key := w]))
  {
  }

  lemma AbortInv(c0: Cluster, c: Cluster, w: int)
    requires Inv(c0, c) && w in c.writers
    ensures Inv(c0, DoAbort(c, w))
  {
    hide ValidLog, BasesCurrent, Serial, SerialTasks, Wins;
    assert WriterInv(c0, c, w);
    if DoAbort(c, w) != c { Uncommitted(c0, c, DoAbort(c, w), w); }
  }

  lemma ValidStep(c0: Cluster, log: seq<Entry>, e: Entry)
    requires ValidLog(c0, log) && e.writer in c0.writers && e.key in Serial(c0, log)
    requires c0.writers[e.writer].writes(Serial(c0, log)[e.key]) != []
    ensures ValidLog(c0, log + [e])
    ensures BasesCurrent(c0, log) && e.base == Serial(c0, log)[e.key].nextEventId ==> BasesCurrent(c0, log + [e])
  {
    hide Serial;
    assert forall n :: 0 <= n <= |log| ==> (log + [e])[..n] == log[..n];
    assert log[..|log|] == log;
  }

  /** Committing is running the writer's transaction alone, now. */
  lemma LongerLog(c0: Cluster, c: Cluster, w: int, now: int)
    requires Inv(c0, c) && w in c.writers && c.writers[w].phase.Holding?
    ensures var c' := DoCommit(c, w, now);
      ValidLog(c0, c'.log) && BasesCurrent(c0, c'.log) && c'.runs == Serial(c0, c'.log) && c'.tasks == SerialTasks(c0, c'.log)
  {
    hide Serial, SerialTasks, ValidLog, BasesCurrent, Extended, Wins;
    assert WriterInv(c0, c, w);
    var e := Entry(w, c.writers[w].phase.key, now, c.writers[w].phase.row.nextEventId);
    ValidStep(c0, c.log, e);
    SerialStep(c0, c.log, e);
    TasksStep(c0, c.log, e);
  }

  lemma TasksStep(c0: Cluster, log: seq<Entry>, e: Entry)
    requires e.writer in c0.writers && e.key in Serial(c0, log + [e])
    ensures SerialTasks(c0, log + [e]) == SerialTasks(c0, log) +
      if c0.writers[e.writer].wakes then [(e.key, Serial(c0, log + [e])[e.key].nextEventId - 1)] else []
  {
    assert (log + [e])[..|log|] == log;
  }

  lemma WinsStep(log: seq<Entry>, e: Entry, w: int)
    ensures Wins(log + [e], w) == Wins(log, w) + if e.writer == w then 1 else 0
  {
    assert (log + [e])[..|log|] == log;
  }

  lemma CommitWriter(c0: Cluster, c: Cluster, w: int, now: int, v: int)
    requires Inv(c0, c) && w in c.writers && c.writers[w].phase.Holding? && v in c.writers
    ensures WriterInv(c0, DoCommit(c, w, now), v)
  {
    hide ValidLog, BasesCurrent, Serial, SerialTasks, Wins, Extended;
    assert WriterInv(c0, c, w) && WriterInv(c0, c, v);
    var e := Entry(w, c.writers[w].phase.key, now, c.writers[w].phase.row.nextEventId);
    WinsStep(c.log, e, v);
    var at := c.writers[v].phase;
    if at.Reading? { assert (c.log + [e])[..at.seen] == c.log[..at.seen]; }
  }

  lemma CommitInv(c0: Cluster, c: Cluster, w: int, now: int)
    requires Inv(c0, c) && w in c.writers
    ensures Inv(c0, DoCommit(c, w, now))
  {
    hide ValidLog, BasesCurrent, Serial, SerialTasks, Wins, Extended, WriterInv;
    var c' := DoCommit(c, w, now);
    if c' != c {
      LongerLog(c0, c, w, now);
      forall v | v in c'.writers ensures WriterInv(c0, c', v) { CommitWriter(c0, c, w, now, v); }
      assert c'.writers.Keys == c.writers.Keys;
    }
  }
}
