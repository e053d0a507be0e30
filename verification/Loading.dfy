/** What loading makes of a history, said over the positions of its events. */
module Loading {
  import opened Events
  import opened Replayer
  import opened StickyReplay

  predicate SettlesActivity(a: Attributes, id: int)
  {
    (a.ActivityTaskCompleted? || a.ActivityTaskFailed?) && a.activityId == id
  }

  predicate IsTaskStart(a: Attributes) { a.WorkflowTaskStarted? }
  predicate IsCancel(a: Attributes) { a.WorkflowExecutionCancelRequested? }
  predicate IsStart(a: Attributes) { a.WorkflowExecutionStarted? }
  predicate IsSignal(a: Attributes) { a.WorkflowExecutionSignaled? }

  /** Event i is the last of its kind. */
  ghost predicate LastOf(h: seq<HistoryEvent>, i: int, kind: Attributes -> bool)
  {
    0 <= i < |h| && kind(h[i].attributes) && forall j :: i < j < |h| ==> !kind(h[j].attributes)
  }

  ghost predicate Has(h: seq<HistoryEvent>, kind: Attributes -> bool)
  {
    exists i :: 0 <= i < |h| && kind(h[i].attributes)
  }

  function CountOf(h: seq<HistoryEvent>, kind: Attributes -> bool): nat
  {
    if h == [] then 0 else CountOf(h[..|h| - 1], kind) + if kind(h[|h| - 1].attributes) then 1 else 0
  }

  /** The last event of a kind, before and after one more event. */
  lemma LastOfPush(h: seq<HistoryEvent>, ev: HistoryEvent, kind: Attributes -> bool)
    ensures Has(h + [ev], kind) <==> Has(h, kind) || kind(ev.attributes)
    ensures kind(ev.attributes) ==> forall i :: LastOf(h + [ev], i, kind) ==> i == |h|
    ensures !kind(ev.attributes) ==> forall i :: LastOf(h + [ev], i, kind) ==> LastOf(h, i, kind)
  {
    var h' := h + [ev];
    assert h'[|h|] == ev;
    if i :| 0 <= i < |h| && kind(h[i].attributes) { assert kind(h'[i].attributes); }
    if i :| 0 <= i < |h'| && kind(h'[i].attributes) && i < |h| { assert kind(h[i].attributes); }
    forall i | LastOf(h', i, kind) && !kind(ev.attributes) ensures LastOf(h, i, kind) {
      forall j | i < j < |h| ensures !kind(h[j].attributes) { assert h'[j] == h[j]; }
    }
  }

  // -------------------------------------------------------------------- outcomes

  /** The outcome of an activity is that of the last event that settles it: a result
      if it was completed, a failure if it failed. */
  ghost predicate OutcomesLoaded(e: Exec, h: seq<HistoryEvent>, r: Exec, id: int)
  {
    var kind := (a: Attributes) => SettlesActivity(a, id);
    && (id in r.outcomes <==> id in e.outcomes || Has(h, kind))
    && (!Has(h, kind) && id in e.outcomes ==> r.outcomes[id] == e.outcomes[id])
    && (forall i :: LastOf(h, i, kind) ==>
          && id in r.outcomes
          && (h[i].attributes.ActivityTaskCompleted? ==> r.outcomes[id] == Resolved(h[i].attributes.result))
          && (h[i].attributes.ActivityTaskFailed? ==> r.outcomes[id] == Rejected(h[i].attributes.failure)))
  }

  ghost predicate FiringsLoaded(e: Exec, h: seq<HistoryEvent>, r: Exec, id: int)
  {
    id in r.firedTimers <==> id in e.firedTimers || exists i :: 0 <= i < |h| && h[i].attributes == TimerFired(id)
  }

  /** Cancel requests and the clock: the last one counts. */
  ghost predicate CancelLoaded(e: Exec, h: seq<HistoryEvent>, r: Exec)
  {
    && (r.cancelRequested <==> e.cancelRequested || Has(h, IsCancel))
    && (!Has(h, IsCancel) ==> r.cancelReason == e.cancelReason)
    && (forall i :: LastOf(h, i, IsCancel) ==> r.cancelReason == h[i].attributes.reason)
  }

  ghost predicate ClockLoaded(e: Exec, h: seq<HistoryEvent>, r: Exec)
  {
    && (!Has(h, IsTaskStart) ==> r.now == e.now)
    && (forall i :: LastOf(h, i, IsTaskStart) ==> r.now == h[i].eventTime)
  }

  /** Every signal is queued once, in the order recorded, under its name with its
      payload. */
  ghost predicate SignalsLoaded(e: Exec, h: seq<HistoryEvent>, r: Exec)
  {
    && |r.pendingSignals| == |e.pendingSignals| + CountOf(h, IsSignal) && e.pendingSignals <= r.pendingSignals
    && (forall i :: 0 <= i < |h| && IsSignal(h[i].attributes) ==> QueuedAt(e, h, r, i))
  }

  ghost predicate QueuedAt(e: Exec, h: seq<HistoryEvent>, r: Exec, i: int)
    requires 0 <= i < |h| && IsSignal(h[i].attributes)
  {
    var k := |e.pendingSignals| + CountOf(h[..i], IsSignal);
    k < |r.pendingSignals| && r.pendingSignals[k] == Signal(h[i].attributes.signalName, h[i].attributes.input)
  }

  /** Everything workflow code may observe after loading `h` into `e`. */
  ghost predicate Loaded(e: Exec, h: seq<HistoryEvent>, r: Exec)
  {
    && (forall id :: OutcomesLoaded(e, h, r, id)) && (forall id :: FiringsLoaded(e, h, r, id))
    && CancelLoaded(e, h, r) && ClockLoaded(e, h, r) && SignalsLoaded(e, h, r)
  }

  /** One event, field by field. */
  lemma ClockEvent(m: Exec, ev: HistoryEvent)
    ensures LoadNewEvent(m, ev).now == if IsTaskStart(ev.attributes) then ev.eventTime else m.now
  {
  }

  lemma CancelEvent(m: Exec, ev: HistoryEvent)
    ensures LoadNewEvent(m, ev).cancelRequested <==> m.cancelRequested || IsCancel(ev.attributes)
    ensures LoadNewEvent(m, ev).cancelReason == if IsCancel(ev.attributes) then ev.attributes.reason else m.cancelReason
  {
  }

  lemma OutcomeEvent(m: Exec, ev: HistoryEvent, id: int)
    ensures var r := LoadNewEvent(m, ev);
      if SettlesActivity(ev.attributes, id) then
        && id in r.outcomes
        && (ev.attributes.ActivityTaskCompleted? ==> r.outcomes[id] == Resolved(ev.attributes.result))
        && (ev.attributes.ActivityTaskFailed? ==> r.outcomes[id] == Rejected(ev.attributes.failure))
      else (id in r.outcomes <==> id in m.outcomes) && (id in m.outcomes ==> r.outcomes[id] == m.outcomes[id])
  {
  }

  lemma OutcomesStep(e: Exec, h: seq<HistoryEvent>, m: Exec, ev: HistoryEvent, id: int)
    requires OutcomesLoaded(e, h, m, id)
    ensures OutcomesLoaded(e, h + [ev], LoadNewEvent(m, ev), id)
  {
    hide LoadNewEvent;
    OutcomeEvent(m, ev, id);
    LastOfPush(h, ev, (a: Attributes) => SettlesActivity(a, id));
    var h' := h + [ev];
    assert h'[|h|] == ev && forall i :: 0 <= i < |h| ==> h'[i] == h[i];
  }

  lemma FiringsStep(e: Exec, h: seq<HistoryEvent>, m: Exec, ev: HistoryEvent, id: int)
    requires FiringsLoaded(e, h, m, id)
    ensures FiringsLoaded(e, h + [ev], LoadNewEvent(m, ev), id)
  {
    var h' := h + [ev];
    assert h'[|h|] == ev;
    if i :| 0 <= i < |h| && h[i].attributes == TimerFired(id) { assert h'[i].attributes == TimerFired(id); }
  }

  lemma CancelStep(e: Exec, h: seq<HistoryEvent>, m: Exec, ev: HistoryEvent)
    requires CancelLoaded(e, h, m)
    ensures CancelLoaded(e, h + [ev], LoadNewEvent(m, ev))
  {
    hide LoadNewEvent;
    CancelEvent(m, ev);
    LastOfPush(h, ev, IsCancel);
    var h' := h + [ev];
    assert h'[|h|] == ev && forall i :: 0 <= i < |h| ==> h'[i] == h[i];
  }

  lemma ClockStep(e: Exec, h: seq<HistoryEvent>, m: Exec, ev: HistoryEvent)
    requires ClockLoaded(e, h, m)
    ensures ClockLoaded(e, h + [ev], LoadNewEvent(m, ev))
  {
    hide LoadNewEvent;
    ClockEvent(m, ev);
    LastOfPush(h, ev, IsTaskStart);
    var h' := h + [ev];
    assert h'[|h|] == ev && forall i :: 0 <= i < |h| ==> h'[i] == h[i];
  }

  lemma {:induction false} SignalsStep(e: Exec, h: seq<HistoryEvent>, m: Exec, ev: HistoryEvent)
    requires SignalsLoaded(e, h, m)
    ensures SignalsLoaded(e, h + [ev], LoadNewEvent(m, ev))
  {
    var h', r := h + [ev], LoadNewEvent(m, ev);
    assert h'[..|h|] == h && h'[|h|] == ev;
    assert m.pendingSignals <= r.pendingSignals;
    forall i | 0 <= i < |h'| && IsSignal(h'[i].attributes) ensures QueuedAt(e, h', r, i) {
      assert h'[..i] == h[..i];
      if i < |h| { assert QueuedAt(e, h, m, i); } else { assert h[..i] == h; }
    }
  }

  lemma {:induction false} TailLoads(e: Exec, h: seq<HistoryEvent>)
    ensures Loaded(e, h, LoadNewEvents(e, h))
  {
    hide OutcomesLoaded, FiringsLoaded, CancelLoaded, ClockLoaded, SignalsLoaded, LoadNewEvent;
    if h == [] {
      NothingLoaded(e);
    } else {
      var pre, ev := h[..|h| - 1], h[|h| - 1];
      var m := LoadNewEvents(e, pre);
      assert h == pre + [ev];
      TailLoads(e, pre);
      forall id ensures OutcomesLoaded(e, h, LoadNewEvents(e, h), id) { OutcomesStep(e, pre, m, ev, id); }
      forall id ensures FiringsLoaded(e, h, LoadNewEvents(e, h), id) { FiringsStep(e, pre, m, ev, id); }
      CancelStep(e, pre, m, ev);
      ClockStep(e, pre, m, ev);
      SignalsStep(e, pre, m, ev);
    }
  }

  lemma NothingLoaded(e: Exec)
    ensures Loaded(e, [], e)
  {
  }

  /** After either loader, for every history: an activity has an outcome exactly when an
      event settles it, the last such event's result or failure; a timer has fired
      exactly when its firing is recorded; cancel request and clock are the last ones
      recorded; the signals are queued in order. */
  lemma LoadersMean(e: Exec, h: seq<HistoryEvent>)
    ensures Loaded(e, h, LoadNewEvents(e, h)) && Loaded(e, h, LoadHistory(e, h))
  {
    hide OutcomesLoaded, FiringsLoaded, CancelLoaded, ClockLoaded, SignalsLoaded, LoadHistory, LoadNewEvents;
    TailLoads(e, h);
    LoadersAgree(e, e, h);
    SameViewLoaded(e, h, LoadNewEvents(e, h), LoadHistory(e, h));
  }

  lemma SameViewLoaded(e: Exec, h: seq<HistoryEvent>, a: Exec, b: Exec)
    requires Loaded(e, h, a) && SameView(a, b)
    ensures Loaded(e, h, b)
  {
    hide Has, LastOf, CountOf;
    forall id ensures OutcomesLoaded(e, h, b, id) { assert OutcomesLoaded(e, h, a, id); }
    forall id ensures FiringsLoaded(e, h, b, id) { assert FiringsLoaded(e, h, a, id); }
    forall i | 0 <= i < |h| && IsSignal(h[i].attributes) ensures QueuedAt(e, h, b, i) { assert QueuedAt(e, h, a, i); }
  }

  // ------------------------------------------------------- recorded calls and start

  predicate IsActivityCall(a: Attributes) { a.ActivityTaskScheduled? }
  predicate IsTimerCall(a: Attributes) { a.TimerStarted? }

  /** A full load remembers the scheduled activities by id and type and the started
      timers by id and duration, each in the order recorded. */
  ghost predicate CallsLoaded(h: seq<HistoryEvent>, acts: seq<ScheduledActivity>, timers: seq<ScheduledTimer>)
  {
    && |acts| == CountOf(h, IsActivityCall) && |timers| == CountOf(h, IsTimerCall)
    && (forall i :: 0 <= i < |h| ==> CallLoaded(h, acts, timers, i))
  }

  ghost predicate CallLoaded(h: seq<HistoryEvent>, acts: seq<ScheduledActivity>, timers: seq<ScheduledTimer>, i: int)
    requires 0 <= i < |h|
  {
    var k, t := CountOf(h[..i], IsActivityCall), CountOf(h[..i], IsTimerCall);
    match h[i].attributes
    case ActivityTaskScheduled(c) => k < |acts| && acts[k] == ScheduledActivity(c.activityId, c.activityType)
    case TimerStarted(id, d) => t < |timers| && timers[t] == ScheduledTimer(id, d)
    case _ => true
  }

  lemma {:induction false} FullLoadMeansCalls(h: seq<HistoryEvent>)
    ensures CallsLoaded(h, FullLoad(h).scheduledActivities, FullLoad(h).scheduledTimers)
  {
    if h != [] {
      var pre, ev := h[..|h| - 1], h[|h| - 1];
      FullLoadMeansCalls(pre);
      LoadEventRecords(FullLoad(pre), ev);
      hide LoadEvent;
      CallsStep(pre, ev, FullLoad(pre).scheduledActivities, FullLoad(pre).scheduledTimers,
                FullLoad(h).scheduledActivities, FullLoad(h).scheduledTimers);
      assert h == pre + [ev];
    }
  }

  lemma {:induction false} CallsStep(h: seq<HistoryEvent>, ev: HistoryEvent, acts: seq<ScheduledActivity>, timers: seq<ScheduledTimer>,
    acts': seq<ScheduledActivity>, timers': seq<ScheduledTimer>)
    requires CallsLoaded(h, acts, timers)
    requires acts' == acts + if ev.attributes.ActivityTaskScheduled?
      then [ScheduledActivity(ev.attributes.activity.activityId, ev.attributes.activity.activityType)] else []
    requires timers' == timers + if ev.attributes.TimerStarted? then [ScheduledTimer(ev.attributes.timerId, ev.attributes.duration)] else []
    ensures CallsLoaded(h + [ev], acts', timers')
  {
    var h' := h + [ev];
    assert h'[..|h|] == h && h'[|h|] == ev;
    forall i | 0 <= i < |h'| ensures CallLoaded(h', acts', timers', i) {
      assert h'[..i] == h[..i];
      if i < |h| { assert CallLoaded(h, acts, timers, i); } else { assert h[..i] == h; }
    }
  }

  /** The start that LoadHistory hands back is the last one recorded. */
  lemma {:induction false} StartLoaded(h: seq<HistoryEvent>)
    ensures StartOf(h).None? <==> !Has(h, IsStart)
    ensures forall i :: LastOf(h, i, IsStart) ==> StartOf(h) == Some((h[i].attributes.input, h[i].attributes.workflowType))
  {
    if h != [] {
      var pre, ev := h[..|h| - 1], h[|h| - 1];
      StartLoaded(pre);
      assert h == pre + [ev];
      LastOfPush(pre, ev, IsStart);
    }
  }
}
