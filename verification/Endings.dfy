/** What a round tells the server, said through the program only: the calls on its way
    and, if the code has returned, how it returned. */
module Endings {
  import opened Events
  import opened Replayer
  import opened StickyReplay
  import opened ReplayPaths

  /** The code returned, threw or continued as new, and that is the last command and
      the recorded outcome. */
  ghost predicate EndsAs(op: Op, r: Exec, cmds: seq<Command>)
  {
    match op
    case Return(v) =>
      r.newCommands == cmds + [CompleteWorkflowExecution(v)] && r.result == Some(v) && r.err == None && r.continuedAsNew == None
    case Throw(f) =>
      r.newCommands == cmds + [FailWorkflowExecution(f)] && r.err == Some(f) && r.result == None && r.continuedAsNew == None
    case ContinueAs(c) =>
      r.newCommands == cmds + [ContinueAsNewWorkflowExecution(c)] && r.continuedAsNew == Some(c) && r.result == None && r.err == None
    case _ => false
  }

  ghost predicate NoOutcome(r: Exec)
  {
    r.result == None && r.err == None && r.continuedAsNew == None
  }

  /** A finished round has the given scheduling commands and then its ending; a waiting
      one has just those commands. */
  ghost predicate RoundOutput(p: Program, r: Exec, cmds: seq<Command>)
  {
    && (forall c :: c in cmds ==> c.ScheduleActivityTask? || c.StartTimer?)
    && (r.phase == Finished ==> EndsAs(p(r.position), r, cmds))
    && (r.phase == Live ==> r.newCommands == cmds && NoOutcome(r))
  }

  lemma {:induction false} PathOnlySchedules(p: Program, pos: seq<Observation>, a: nat, t: nat)
    ensures forall c :: c in CommandsFrom(p, pos, a, t) ==> c.ScheduleActivityTask? || c.StartTimer?
  {
    if pos != [] { PathOnlySchedules(p, pos[..|pos| - 1], a, t); }
  }

  lemma FinishOutput(p: Program, e: Exec)
    requires e.phase == Live && NoOutcome(e) && Advance(p, e).phase == Finished
    ensures EndsAs(p(e.position), Advance(p, e), e.newCommands) && Advance(p, e).position == e.position
  {
  }

  /** A full replay of any history, at any point of the round: the commands are those
      of the program's calls beyond the record, then its ending if it has ended. */
  lemma ReplayOutput(p: Program, h: seq<HistoryEvent>, n: nat)
    ensures var r := Run(p, FullLoad(h), n);
      r.phase != Panicked ==>
        RoundOutput(p, r, CommandsFrom(p, r.position, |FullLoad(h).scheduledActivities|, |FullLoad(h).scheduledTimers|))
  {
    hide Advance, LoadHistory, CommandsFrom, ActivityCalls, TimerCalls, Answers, Compatible, Run, EndsAs;
    var e := FullLoad(h);
    LoadLeavesUnstarted(NewExec(), h);
    var r := Run(p, e, n);
    PathOnlySchedules(p, r.position, |e.scheduledActivities|, |e.scheduledTimers|);
    if r.phase == Live {
      ReplayAnswers(p, e, n);
    } else if r.phase == Finished {
      var m := LastCall(p, e, n);
      ReplayAnswers(p, e, m);
      FinishOutput(p, Run(p, e, m));
    }
  }

  // ------------------------------------------------------- what the code is told

  /** What workflow code is told in answer to each thing it may ask. */
  ghost predicate Tells(op: Op, e: Exec, o: Observation)
  {
    match op
    case Schedule(_, _, _) => o == ActivityHandle(e.nextActivityIdx + 1)
    case Await(id) => id in e.outcomes && o == OutcomeSeen(e.outcomes[id])
    case NewTimer(_) => o == TimerHandle(e.nextTimerIdx + 1)
    case AwaitTimer(id) => id in e.firedTimers && o == FiringSeen
    case ReadClock => o == ClockSeen(e.now)
    case ReadCancel => o == CancelSeen(e.cancelRequested, e.cancelReason)
    case _ => false
  }

  /** A coroutine waits exactly for an outcome or a firing that is not there. */
  ghost predicate Waits(op: Op, e: Exec)
  {
    match op
    case Await(id) => id !in e.outcomes
    case AwaitTimer(id) => id !in e.firedTimers
    case _ => false
  }

  /** Every engine call of a live coroutine either waits, or ends the workflow, or
      panics, or tells the code what it asked; and it changes nothing that was loaded. */
  lemma CallTells(p: Program, e: Exec)
    requires e.phase == Live
    ensures var op, r := p(e.position), Advance(p, e);
      && (Halted(p, e) <==> Waits(op, e)) && (Waits(op, e) ==> r == e)
      && (!Waits(op, e) && r.phase == Live ==>
            |r.position| == |e.position| + 1 && e.position <= r.position && Tells(op, e, r.position[|e.position|]))
      && (r.phase == Panicked ==> op.Schedule? || op.NewTimer?)
      && r.now == e.now && r.outcomes == e.outcomes && r.firedTimers == e.firedTimers && r.pendingSignals == e.pendingSignals
      && r.cancelRequested == e.cancelRequested && r.cancelReason == e.cancelReason
      && r.scheduledActivities == e.scheduledActivities && r.scheduledTimers == e.scheduledTimers
  {
  }

  // --------------------------------------------------------------- resumed rounds

  /** `r` is `s` moved along to its position, with the commands for the calls since. */
  ghost predicate MovedOn(p: Program, s: Exec, r: Exec)
  {
    && Beyond(r) && NoOutcome(r)
    && r.nextActivityIdx == |ActivityCalls(p, r.position)| && r.nextTimerIdx == |TimerCalls(p, r.position)|
    && s.nextActivityIdx <= r.nextActivityIdx && s.nextTimerIdx <= r.nextTimerIdx
    && r.newCommands == CommandsFrom(p, r.position, s.nextActivityIdx, s.nextTimerIdx)
  }

  lemma {:induction false} MovesOn(p: Program, s: Exec, r: Exec)
    requires r.phase == Live && MovedOn(p, s, r) && Advance(p, r).phase == Live
    ensures MovedOn(p, s, Advance(p, r))
  {
    hide ActivityCalls, TimerCalls, CommandsFrom;
    var r' := Advance(p, r);
    if r' != r {
      var o := r'.position[|r.position|];
      assert r'.position == r.position + [o];
      ActivityCallsUnfold(p, r.position, o);
      TimerCallsUnfold(p, r.position, o);
      CommandsUnfold(p, r.position, o, s.nextActivityIdx, s.nextTimerIdx);
    }
  }

  lemma {:induction false} StaysMoved(p: Program, s: Exec, n: nat)
    requires s.phase == Live && MovedOn(p, s, s)
    ensures Run(p, s, n).phase != Panicked && (Run(p, s, n).phase == Live ==> MovedOn(p, s, Run(p, s, n)))
  {
    hide Advance, MovedOn, Beyond;
    MovedBeyond(p, s, s);
    LockStep(p, s, s, n);
    if n > 0 {
      StaysMoved(p, s, n - 1);
      var r := Run(p, s, n - 1);
      if r.phase == Live {
        if Advance(p, r).phase == Live { MovesOn(p, s, r); }
      } else {
        DoneStays(p, r);
      }
    }
  }

  lemma MovedBeyond(p: Program, s: Exec, r: Exec)
    requires MovedOn(p, s, r)
    ensures Beyond(r) && NoOutcome(r) && SameRound(r, r)
    ensures r.newCommands == CommandsFrom(p, r.position, s.nextActivityIdx, s.nextTimerIdx)
  {
  }

  lemma ResumesMoved(p: Program, c: Exec, h: seq<HistoryEvent>, h': seq<HistoryEvent>)
    requires Caches(p, c, h)
    ensures var s := StickyLoad(c, h', |h|);
      && s.phase == Live && s.position == c.position && MovedOn(p, s, s)
      && s.nextActivityIdx == |ActivityCalls(p, c.position)| && s.nextTimerIdx == |TimerCalls(p, c.position)|
  {
    hide ActivityCalls, TimerCalls, CommandsFrom, LoadHistory, LoadNewEvents, Answers, CommandedActivities, CommandedTimers;
    TailLoadFrame(ResetRoundOutput(c), EventsAfter(h', |h|));
    NothingToReport(p, c.position);
  }

  /** A resumed round, whatever the tail: it never panics, and its commands are those of
      the program's calls since the cached position, then its ending. */
  lemma ResumedOutput(p: Program, c: Exec, h: seq<HistoryEvent>, h': seq<HistoryEvent>, n: nat)
    requires Caches(p, c, h)
    ensures var r := Run(p, StickyLoad(c, h', |h|), n);
      && r.phase != Panicked
      && RoundOutput(p, r, CommandsFrom(p, r.position, |ActivityCalls(p, c.position)|, |TimerCalls(p, c.position)|))
  {
    hide Advance, Caches, CommandsFrom, ActivityCalls, TimerCalls, StickyLoad, MovedOn, EndsAs, Run;
    var s := StickyLoad(c, h', |h|);
    ResumesMoved(p, c, h, h');
    StaysMoved(p, s, n);
    var r := Run(p, s, n);
    PathOnlySchedules(p, r.position, s.nextActivityIdx, s.nextTimerIdx);
    if r.phase == Live {
      MovedBeyond(p, s, r);
    } else {
      var m := LastCall(p, s, n);
      StaysMoved(p, s, m);
      MovedBeyond(p, s, Run(p, s, m));
      FinishOutput(p, Run(p, s, m));
    }
  }
}
