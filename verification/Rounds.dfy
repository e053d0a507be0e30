/** What the commands of one round do to the numbering of a history. */
module Rounds {
  import opened Events
  import opened Replayer
  import opened StickyReplay
  import opened ReplayPaths

  /** The commands schedule no activity, or `d` records all the activities of `h`; and
      likewise for timers. */
  ghost predicate SeenAll(d: seq<HistoryEvent>, h: seq<HistoryEvent>, cmds: seq<Command>)
  {
    && (CommandedActivities(cmds) == [] || RecordedActivities(d) == RecordedActivities(h))
    && (CommandedTimers(cmds) == [] || RecordedTimers(d) == RecordedTimers(h))
  }

  /** The commands go on counting where the replayed history stops. */
  ghost predicate CountsOn(d: seq<HistoryEvent>, cmds: seq<Command>)
  {
    && (forall i :: 0 <= i < |CommandedActivities(cmds)| ==>
          CommandedActivities(cmds)[i].activityId == |RecordedActivities(d)| + i + 1)
    && (forall i :: 0 <= i < |CommandedTimers(cmds)| ==>
          CommandedTimers(cmds)[i].timerId == |RecordedTimers(d)| + i + 1)
  }

  lemma LiveCountsOn(p: Program, d: seq<HistoryEvent>, n: nat)
    requires Run(p, FullLoad(d), n).phase == Live
    ensures CountsOn(d, Run(p, FullLoad(d), n).newCommands)
  {
    hide LoadHistory, ActivityCalls, TimerCalls, CommandsFrom, Answers, CommandedActivities, CommandedTimers, Compatible, Run;
    var e := FullLoad(d);
    LoadLeavesUnstarted(NewExec(), d);
    ReplayAnswers(p, e, n);
    var pos := Run(p, e, n).position;
    CommandsAreCalls(p, pos, |RecordedActivities(d)|, |RecordedTimers(d)|);
    CallIds(p, pos);
  }

  lemma RoundCountsOn(p: Program, d: seq<HistoryEvent>, r: Exec)
    requires Settles(p, FullLoad(d), r) && r.phase != Panicked
    ensures CountsOn(d, r.newCommands)
  {
    hide LoadHistory, CommandedActivities, CommandedTimers, Advance, Halted, RecordedActivities, RecordedTimers;
    var e := FullLoad(d);
    LoadLeavesUnstarted(NewExec(), d);
    var n: nat :| r == Run(p, e, n) && Halted(p, r);
    if r.phase == Live {
      LiveCountsOn(p, d, n);
    } else {
      var m := LastCall(p, e, n);
      LiveCountsOn(p, d, m);
      FinishSchedulesNothing(p, Run(p, e, m));
    }
  }

  lemma PrefixRecords(d: seq<HistoryEvent>, h: seq<HistoryEvent>)
    requires d <= h
    ensures RecordedActivities(d) <= RecordedActivities(h) && RecordedTimers(d) <= RecordedTimers(h)
  {
    assert h == d + h[|d|..];
    RecordedConcat(d, h[|d|..]);
  }

  /** For every program: recording a round's commands keeps a history numbered if and
      only if the round scheduled nothing or had seen everything scheduled. */
  lemma ResponseNumbersIff(p: Program, d: seq<HistoryEvent>, r: Exec, h: seq<HistoryEvent>, h': seq<HistoryEvent>)
    requires NumberedInOrder(h) && d <= h && Settles(p, FullLoad(d), r) && r.phase != Panicked
    requires h <= h' && RecordsExactly(h'[|h|..], r.newCommands)
    ensures NumberedInOrder(h') <==> SeenAll(d, h, r.newCommands)
  {
    hide Settles, FullLoad, RecordedActivities, RecordedTimers, CommandedActivities, CommandedTimers;
    RoundCountsOn(p, d, r);
    PrefixRecords(d, h);
    assert h' == h + h'[|h|..];
    RecordedConcat(h, h'[|h|..]);
    var a, t := |RecordedActivities(h)|, |RecordedTimers(h)|;
    if NumberedInOrder(h') {
      if CommandedActivities(r.newCommands) != [] { assert RecordedActivities(h')[a].activityId == a + 1; }
      if CommandedTimers(r.newCommands) != [] { assert RecordedTimers(h')[t].timerId == t + 1; }
    }
  }
}
