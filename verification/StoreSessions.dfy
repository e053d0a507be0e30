/** The store's own runs are sessions of a caching worker: what the cache assumes about
    successive deliveries holds of them. */
module StoreSessions {
  import opened Events
  import Replayer
  import opened StickyReplay
  import opened ReplayPaths
  import opened WorkerCache
  import opened Store
  import opened World
  import opened Effects
  import opened Soundness
  import opened Leases
  import opened Conservation
  import opened Wakeups
  import opened ReplaySafety

  /** The accepted responses of one run, in order. */
  function Of(accepted: seq<Acceptance>, key: RunKey): seq<Acceptance>
  {
    if accepted == [] then []
    else
      var a := accepted[|accepted| - 1];
      Of(accepted[..|accepted| - 1], key) + if a.token.key == key then [a] else []
  }

  /** The later history holds, beyond what `a` was computed from, exactly what `a`
      commanded. */
  ghost predicate Carries(a: Acceptance, h: seq<HistoryEvent>)
  {
    && a.delivered <= h && RecordsExactly(h[|a.delivered|..], a.commands)
    && exists i :: |a.delivered| <= i < |h| && FromResponse(h[i].attributes)
  }

  /** Each response of the run was computed from a history that carries the one before
      it, the first from one without responses, and the run carries the last. */
  ghost predicate Consecutive(responses: seq<Acceptance>, h: seq<HistoryEvent>)
  {
    && (forall i :: 0 < i < |responses| ==> Carries(responses[i - 1], responses[i].delivered))
    && (if responses == [] then HasAllResponses([], h)
        else HasAllResponses([], responses[0].delivered) && Carries(responses[|responses| - 1], h))
  }

  // ----------------------------------------------------------------- one history

  lemma CarriesOn(a: Acceptance, h: seq<HistoryEvent>, h': seq<HistoryEvent>)
    requires Carries(a, h) && HasAllResponses(h, h')
    ensures Carries(a, h')
  {
    hide RecordedActivities, RecordedTimers, CommandedActivities, CommandedTimers;
    var n := |a.delivered|;
    var i :| n <= i < |h| && FromResponse(h[i].attributes);
    assert h'[i] == h[i];
    assert h'[n..] == h[n..] + h'[|h|..];
    QuietTail(h[n..], h'[n..]);
  }

  /** A history that has all the responses carries the last one. */
  lemma CarriesBack(a: Acceptance, d: seq<HistoryEvent>, h: seq<HistoryEvent>)
    requires Carries(a, h) && HasAllResponses(d, h)
    ensures Carries(a, d)
  {
    hide RecordedActivities, RecordedTimers, CommandedActivities, CommandedTimers;
    var n := |a.delivered|;
    var i :| n <= i < |h| && FromResponse(h[i].attributes);
    assert i < |d| && d[i] == h[i];
    assert h[n..] == d[n..] + h[|d|..];
    QuietTail(d[n..], h[n..]);
  }

  lemma NewResponseCarried(a: Acceptance, h: seq<HistoryEvent>, events: seq<HistoryEvent>)
    requires HasAllResponses(a.delivered, h) && RecordsExactly(events, a.commands)
    requires events != [] && FromResponse(events[0].attributes)
    ensures Carries(a, h + events)
  {
    hide RecordedActivities, RecordedTimers, CommandedActivities, CommandedTimers;
    var n := |a.delivered|;
    assert (h + events)[n..] == h[n..] + events;
    RecordedConcat(h[n..], events);
    QuietTail([], h[n..]);
    NothingRecorded();
    assert (h + events)[|h|] == events[0];
  }

  lemma NothingRecorded()
    ensures RecordedActivities([]) == [] && RecordedTimers([]) == []
  {
  }

  lemma QuietConsecutive(responses: seq<Acceptance>, h: seq<HistoryEvent>, h': seq<HistoryEvent>)
    requires Consecutive(responses, h) && HasAllResponses(h, h')
    ensures Consecutive(responses, h')
  {
    hide Carries;
    if responses != [] { CarriesOn(responses[|responses| - 1], h, h'); }
  }

  lemma NextConsecutive(responses: seq<Acceptance>, h: seq<HistoryEvent>, a: Acceptance, events: seq<HistoryEvent>)
    requires Consecutive(responses, h) && HasAllResponses(a.delivered, h) && RecordsExactly(events, a.commands)
    requires events != [] && FromResponse(events[0].attributes)
    ensures Consecutive(responses + [a], h + events)
  {
    hide Carries, RecordsExactly;
    NewResponseCarried(a, h, events);
    if responses != [] { CarriesBack(responses[|responses| - 1], a.delivered, h); }
  }

  // ------------------------------------------------------------------ whole runs

  ghost predicate AllConsecutive(w: World)
  {
    forall key :: Consecutive(Of(w.accepted, key), HistoryOf(w.db.runs, key))
  }

  lemma OfOne(accepted: seq<Acceptance>, a: Acceptance, key: RunKey)
    ensures Of(accepted + [a], key) == if a.token.key == key then Of(accepted, key) + [a] else Of(accepted, key)
  {
    assert (accepted + [a])[..|accepted|] == accepted;
  }

  /** Only an accepted response changes the list of accepted responses. */
  lemma UnansweredBooks(w: World, s: Step)
    requires SoundWorld(w) && !EffectOf(w, s).Responded?
    ensures Apply(w, s).accepted == w.accepted
  {
    hide Apply, EffectOf, SoundWorld;
    BooksFrame(w, s);
    if s.Complete? { AnswerChangesTables(w, s); }
  }

  lemma AnswerChangesTables(w: World, s: Step)
    requires SoundWorld(w) && s.Complete? && !EffectOf(w, s).Responded?
    ensures Apply(w, s).accepted == w.accepted
  {
    hide Apply, Sound, CompleteWorkflowTask;
    if Apply(w, s).accepted != w.accepted {
      AcceptedEntry(w, s);
      ResponseChangesTables(w.db, w.tickets[s.lease].token, s.commands, s.sticky, s.now);
    }
  }

  lemma ResponseChangesTables(db: Db, token: TaskToken, cmds: seq<Command>, sticky: Option<Sticky>, now: int)
    requires Sound(db) && CompleteWorkflowTask(db, token, cmds, sticky, now).Commit?
    ensures CompleteWorkflowTask(db, token, cmds, sticky, now).db != db
  {
    hide Sound, CompleteWorkflowTask;
    RespondedHistories(db, token, cmds, sticky, now, token.key);
    ResponseBegins(db.runs[token.key], cmds, db.nextUuid, now);
  }

  lemma StepConsecutive(code: RunKey -> Replayer.Program, w: World, s: Step)
    requires SoundWorld(w) && LeaseSafe(w) && AllConsecutive(w) && Disciplined(code, w, s)
    ensures AllConsecutive(Apply(w, s))
  {
    hide Apply, Changes, Grounded, Sound, LeaseSafe, CompleteWorkflowTask, Consecutive, EffectOf;
    var w', e := Apply(w, s), EffectOf(w, s);
    StepEffect(w, s);
    StepGrounded(w, s);
    forall key ensures Consecutive(Of(w'.accepted, key), HistoryOf(w'.db.runs, key)) {
      if e.Responded? {
        AcceptedConsecutive(code, w, s, key);
      } else {
        UnansweredBooks(w, s);
        EffectNoResponses(w.db, w'.db, e, key);
        QuietConsecutive(Of(w.accepted, key), HistoryOf(w.db.runs, key), HistoryOf(w'.db.runs, key));
      }
    }
  }

  lemma AcceptedConsecutive(code: RunKey -> Replayer.Program, w: World, s: Step, key: RunKey)
    requires SoundWorld(w) && AllConsecutive(w) && Disciplined(code, w, s) && EffectOf(w, s).Responded?
    ensures Consecutive(Of(Apply(w, s).accepted, key), HistoryOf(Apply(w, s).db.runs, key))
  {
    hide Apply, Sound, CompleteWorkflowTask, Consecutive, EffectOf, RecordsExactly, HasAllResponses;
    RespondedStep(w, s);
    AcceptedEntry(w, s);
    var t := w.tickets[s.lease];
    var a := Acceptance(t.token, t.progress.history, s.commands);
    OfOne(w.accepted, a, key);
    RespondedHistories(w.db, t.token, s.commands, s.sticky, s.now, key);
    if key == t.token.key {
      var events := ResponseEvents(w.db.runs[key], s.commands, w.db.nextUuid, s.now);
      CommandsReadBack(w.db.runs[key], s.commands, w.db.nextUuid, s.now);
      ResponseBegins(w.db.runs[key], s.commands, w.db.nextUuid, s.now);
      NextConsecutive(Of(w.accepted, key), HistoryOf(w.db.runs, key), a, events);
    } else {
      QuietConsecutive(Of(w.accepted, key), HistoryOf(w.db.runs, key), HistoryOf(Apply(w, s).db.runs, key));
    }
  }

  lemma ResponseBegins(run: Run, cmds: seq<Command>, newRunId: Uuid, now: int)
    requires Unsupported !in cmds
    ensures var events := ResponseEvents(run, cmds, newRunId, now); events != [] && FromResponse(events[0].attributes)
  {
  }

  lemma {:induction false} DisciplinedConsecutive(code: RunKey -> Replayer.Program, steps: seq<Step>)
    requires DisciplinedRun(code, steps)
    ensures AllConsecutive(Reach(Init(), steps))
  {
    hide Consecutive, Disciplined, SoundWorld, LeaseSafe, Apply;
    if steps == [] {
      NothingAccepted();
    } else {
      var pre := steps[..|steps| - 1];
      assert forall n :: 0 <= n <= |pre| ==> pre[..n] == steps[..n];
      DisciplinedConsecutive(code, pre);
      ReachableLeases(pre);
      StepConsecutive(code, Reach(Init(), pre), steps[|steps| - 1]);
    }
  }

  lemma NothingAccepted()
    ensures AllConsecutive(Reach(Init(), []))
  {
  }

  // -------------------------------------------------------------------- sessions

  function Delivered(responses: seq<Acceptance>): (ds: seq<seq<HistoryEvent>>)
    ensures |ds| == |responses| && forall i :: 0 <= i < |ds| ==> ds[i] == responses[i].delivered
  {
    seq(|responses|, i requires 0 <= i < |responses| => responses[i].delivered)
  }

  lemma {:induction false} DeliveredIsPrefix(responses: seq<Acceptance>, h: seq<HistoryEvent>, i: nat)
    requires Consecutive(responses, h) && i < |responses|
    ensures responses[i].delivered <= h
    decreases |responses| - i
  {
    if i + 1 < |responses| {
      DeliveredIsPrefix(responses, h, i + 1);
      assert Carries(responses[i + 1 - 1], responses[i + 1].delivered);
    }
  }

  lemma PrefixKeeps(d: seq<HistoryEvent>, h: seq<HistoryEvent>)
    requires d <= h && Dense(h) && UniqueOutcomes(h)
    ensures Dense(d) && UniqueOutcomes(d)
  {
  }

  /** These rounds were the ones answered: they ran from a hit or a miss, as the cache
      had it, gave the commands that were accepted, and left the run going. */
  ghost predicate Answered(p: Replayer.Program, responses: seq<Acceptance>, hits: seq<bool>, rs: seq<Replayer.Exec>)
  {
    && |hits| == |rs| == |responses| && RoundsSettle(p, hits, Delivered(responses), rs)
    && (forall i :: 0 <= i < |rs| ==> rs[i].newCommands == responses[i].commands)
    && (forall i :: 0 <= i < |rs| - 1 ==> rs[i].phase.Live?)
  }

  lemma AnsweredIsSession(p: Replayer.Program, responses: seq<Acceptance>, h: seq<HistoryEvent>, hits: seq<bool>, rs: seq<Replayer.Exec>)
    requires Consecutive(responses, h) && Dense(h) && UniqueOutcomes(h) && Answered(p, responses, hits, rs)
    ensures Session(p, hits, Delivered(responses), rs)
  {
    hide Session, RoundsSettle, RecordsExactly, UniqueOutcomes, Dense, HasAllResponses;
    var ds := Delivered(responses);
    forall i | 0 < i < |ds| ensures GoesOn(p, ds, rs, i) {
      DeliveredIsPrefix(responses, h, i);
      PrefixKeeps(ds[i], h);
      assert Carries(responses[i - 1], responses[i].delivered);
    }
    SessionOf(p, hits, ds, rs);
  }

  /** Of every run of a disciplined store: whatever a caching worker hit, missed or
      evicted, each round whose answer was accepted ended as a full replay of what was
      delivered for it. */
  lemma StoreRunsAreSessions(code: RunKey -> Replayer.Program, steps: seq<Step>, key: RunKey, hits: seq<bool>, rs: seq<Replayer.Exec>)
    requires (forall k :: OutcomeDriven(code(k))) && DisciplinedRun(code, steps)
    requires Answered(code(key), Of(Reach(Init(), steps).accepted, key), hits, rs)
    ensures var ds := Delivered(Of(Reach(Init(), steps).accepted, key));
      && Session(code(key), hits, ds, rs)
      && forall i :: 0 <= i < |ds| ==> AsReplayed(code(key), ds[i], rs[i])
  {
    hide Reach, OutcomeDriven, DisciplinedRun, Answered, Session, AsReplayed, Consecutive, SoundWorld, Replayable,
      ActivitiesConserved, TimersConserved, UniqueOutcomes, NumberedInOrder, Dense;
    var w := Reach(Init(), steps);
    var responses, h := Of(w.accepted, key), HistoryOf(w.db.runs, key);
    DisciplinedConsecutive(code, steps);
    DisciplinedReplayable(code, steps);
    ReachableConserved(steps);
    ReachableSound(steps);
    ReplayableIsNumbered(code(key), h);
    ConservedOutcomes(w.db, key);
    SoundHistory(w, key);
    AnsweredIsSession(code(key), responses, h, hits, rs);
    AnsweredLengths(code(key), responses, hits, rs);
    forall i | 0 <= i < |responses| ensures AsReplayed(code(key), Delivered(responses)[i], rs[i]) {
      EvictionIsInvisible(code(key), hits, Delivered(responses), rs, i);
    }
  }

  lemma AnsweredLengths(p: Replayer.Program, responses: seq<Acceptance>, hits: seq<bool>, rs: seq<Replayer.Exec>)
    requires Answered(p, responses, hits, rs)
    ensures |hits| == |rs| == |responses|
  {
  }

  lemma SoundHistory(w: World, key: RunKey)
    requires SoundWorld(w)
    ensures Dense(HistoryOf(w.db.runs, key))
  {
  }
}
