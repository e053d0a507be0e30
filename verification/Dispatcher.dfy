/** Cooperative coroutines: rounds that resume each of them in creation order. */
module Dispatcher {
  import opened Events

  /** What one resumption of a coroutine does to the state it shares with the others:
      the state it leaves, the coroutines it starts, and how it stops. */
  datatype Ending = Yielded | Returned | Panics(message: string)
  datatype Burst<S> = Burst(state: S, started: seq<int>, ending: Ending)

  /** Coroutine code by name: the nth resumption, against the shared state. */
  type Code<!S> = (int, nat, S) -> Burst<S>

  datatype Coroutine = Coroutine(name: int, resumed: nat, done: bool, panicErr: Option<string>)

  /** The dispatcher's coroutines, the shared state, and who was resumed so far. */
  datatype Crew<S> = Crew(coroutines: seq<Coroutine>, state: S, trace: seq<nat>)

  function Fresh(names: seq<int>): (r: seq<Coroutine>)
    ensures |r| == |names| && forall i :: 0 <= i < |r| ==> !r[i].done
  {
    seq(|names|, i requires 0 <= i < |names| => Coroutine(names[i], 0, false, None))
  }

  /** Resume coroutine i until it yields or is done. */
  function Resume<S>(code: Code<S>, c: Crew<S>, i: nat): Crew<S>
    requires i < |c.coroutines|
  {
    var co := c.coroutines[i];
    var b := code(co.name, co.resumed, c.state);
    var co' := Coroutine(co.name, co.resumed + 1, b.ending != Yielded,
                         if b.ending.Panics? then Some(b.ending.message) else co.panicErr);
    Crew(c.coroutines[i := co'] + Fresh(b.started), b.state, c.trace + [i])
  }

  /** The first n turns of a round. */
  function Turns<S>(code: Code<S>, c: Crew<S>, n: nat): (r: Crew<S>)
    requires n <= |c.coroutines|
    ensures |c.coroutines| <= |r.coroutines|
  {
    if n == 0 then c
    else
      var r := Turns(code, c, n - 1);
      if r.coroutines[n - 1].done then r else Resume(code, r, n - 1)
  }

  function Round<S>(code: Code<S>, c: Crew<S>): Crew<S>
  {
    Turns(code, c, |c.coroutines|)
  }

  /** The coroutines, among the first n, that are not done, in creation order. */
  function Pending(coroutines: seq<Coroutine>, n: nat): seq<nat>
    requires n <= |coroutines|
  {
    if n == 0 then [] else Pending(coroutines, n - 1) + if coroutines[n - 1].done then [] else [n - 1]
  }

  /** The shared state when coroutine i's turn comes: what the pending ones before it
      made of it, one after the other. */
  function StateBefore<S>(code: Code<S>, c: Crew<S>, i: nat): S
    requires i <= |c.coroutines|
  {
    if i == 0 then c.state
    else
      var co, s := c.coroutines[i - 1], StateBefore(code, c, i - 1);
      if co.done then s else code(co.name, co.resumed, s).state
  }

  /** The coroutines started by the first i, in order. */
  function StartedBefore<S>(code: Code<S>, c: Crew<S>, i: nat): seq<int>
    requires i <= |c.coroutines|
  {
    if i == 0 then []
    else
      var co, s := c.coroutines[i - 1], StateBefore(code, c, i - 1);
      StartedBefore(code, c, i - 1) + if co.done then [] else code(co.name, co.resumed, s).started
  }

  /** What a turn makes of coroutine i: nothing if it is done; otherwise it has been
      resumed once more, against the state it found, and is done unless it yielded. */
  ghost predicate TurnOf<S>(code: Code<S>, c: Crew<S>, i: nat, co': Coroutine, turn: bool)
    requires i < |c.coroutines|
  {
    var co := c.coroutines[i];
    if co.done || !turn then co' == co
    else
      var b := code(co.name, co.resumed, StateBefore(code, c, i));
      && co'.name == co.name && co'.resumed == co.resumed + 1
      && (co'.done <==> b.ending.Returned? || b.ending.Panics?)
      && co'.panicErr == (match b.ending case Panics(message) => Some(message) case _ => co.panicErr)
  }

  /** After the first n turns. */
  ghost predicate TurnsDone<S>(code: Code<S>, c: Crew<S>, r: Crew<S>, n: nat)
    requires n <= |c.coroutines|
  {
    && |r.coroutines| == |c.coroutines| + |StartedBefore(code, c, n)| && r.trace == c.trace + Pending(c.coroutines, n)
    && r.state == StateBefore(code, c, n)
    && (forall i :: 0 <= i < |c.coroutines| ==> TurnOf(code, c, i, r.coroutines[i], i < n))
    && (forall i :: |c.coroutines| <= i < |r.coroutines| ==>
          r.coroutines[i] == Coroutine(StartedBefore(code, c, n)[i - |c.coroutines|], 0, false, None))
  }

  lemma ResumeIsTurn<S>(code: Code<S>, c: Crew<S>, r: Crew<S>, i: nat)
    requires i < |c.coroutines| && TurnsDone(code, c, r, i) && !r.coroutines[i].done
    ensures TurnsDone(code, c, Resume(code, r, i), i + 1)
  {
    assert TurnOf(code, c, i, r.coroutines[i], false);
    var r' := Resume(code, r, i);
    assert r'.state == StateBefore(code, c, i + 1);
    forall k | 0 <= k < |c.coroutines| ensures TurnOf(code, c, k, r'.coroutines[k], k < i + 1) {
      assert TurnOf(code, c, k, r.coroutines[k], k < i);
    }
  }

  lemma SkipIsTurn<S>(code: Code<S>, c: Crew<S>, r: Crew<S>, i: nat)
    requires i < |c.coroutines| && TurnsDone(code, c, r, i) && r.coroutines[i].done
    ensures TurnsDone(code, c, r, i + 1)
  {
    assert TurnOf(code, c, i, r.coroutines[i], false);
    assert StartedBefore(code, c, i + 1) == StartedBefore(code, c, i);
    forall k | 0 <= k < |c.coroutines| ensures TurnOf(code, c, k, r.coroutines[k], k < i + 1) {
      assert TurnOf(code, c, k, r.coroutines[k], k < i);
    }
  }

  lemma {:induction false} TurnsTaken<S>(code: Code<S>, c: Crew<S>, n: nat)
    requires n <= |c.coroutines|
    ensures TurnsDone(code, c, Turns(code, c, n), n)
  {
    hide Resume, TurnsDone;
    if n == 0 {
      NoTurns(code, c);
    } else {
      TurnsTaken(code, c, n - 1);
      var r := Turns(code, c, n - 1);
      if r.coroutines[n - 1].done { SkipIsTurn(code, c, r, n - 1); } else { ResumeIsTurn(code, c, r, n - 1); }
    }
  }

  lemma NoTurns<S>(code: Code<S>, c: Crew<S>)
    ensures TurnsDone(code, c, c, 0)
  {
  }

  /** A round resumes exactly the coroutines that existed at its start and were not
      done, once each and in creation order, each against the state the ones before it
      left; they are done afterwards unless they yielded; and those started during the
      round are there, in order, to run first in the next. */
  lemma RoundResumesPending<S>(code: Code<S>, c: Crew<S>)
    ensures TurnsDone(code, c, Round(code, c), |c.coroutines|)
  {
    TurnsTaken(code, c, |c.coroutines|);
  }

  /** Rounds with state loaded before each. */
  function Rounds<S>(code: Code<S>, c: Crew<S>, loads: seq<S -> S>): Crew<S>
  {
    if loads == [] then c
    else
      var r := Rounds(code, c, loads[..|loads| - 1]);
      Round(code, r.(state := loads[|loads| - 1](r.state)))
  }

  /** Done is for good: over any number of rounds a done coroutine is never resumed
      again, and coroutines are only ever added. */
  lemma {:induction false} DoneForGood<S>(code: Code<S>, c: Crew<S>, loads: seq<S -> S>, i: nat)
    requires i < |c.coroutines| && c.coroutines[i].done
    ensures var r := Rounds(code, c, loads);
      && |c.coroutines| <= |r.coroutines| && r.coroutines[i] == c.coroutines[i]
      && c.trace <= r.trace && forall k :: |c.trace| <= k < |r.trace| ==> r.trace[k] != i
  {
    if loads != [] {
      DoneForGood(code, c, loads[..|loads| - 1], i);
      var r := Rounds(code, c, loads[..|loads| - 1]);
      TurnsTaken(code, r.(state := loads[|loads| - 1](r.state)), |r.coroutines|);
      assert TurnOf(code, r.(state := loads[|loads| - 1](r.state)), i, Rounds(code, c, loads).coroutines[i], true);
      PendingNotDone(r.coroutines, |r.coroutines|);
    }
  }

  lemma {:induction false} PendingNotDone(coroutines: seq<Coroutine>, n: nat)
    requires n <= |coroutines|
    ensures forall k :: 0 <= k < |Pending(coroutines, n)| ==> Pending(coroutines, n)[k] < n && !coroutines[Pending(coroutines, n)[k]].done
  {
    if n > 0 { PendingNotDone(coroutines, n - 1); }
  }

  class RoundDispatcher<S> {
    var coroutines: seq<Coroutine>
    var state: S
    var trace: seq<nat>

    function Everyone(): Crew<S>
      reads this
    {
      Crew(coroutines, state, trace)
    }

    constructor (state: S)
      ensures Everyone() == Crew([], state, [])
    {
      coroutines, this.state, trace := [], state, [];
    }

    /** The coroutine does not begin until the next round. */
    method Go(name: int)
      modifies this
      ensures Everyone() == old(Everyone()).(coroutines := old(coroutines) + Fresh([name]))
    {
      coroutines := coroutines + [Coroutine(name, 0, false, None)];
    }

    /** The range is over the list as it was when the round began. */
    method ExecuteRound(code: Code<S>)
      modifies this
      ensures Everyone() == Round(code, old(Everyone()))
    {
      var n := |coroutines|;
      for i := 0 to n
        invariant n == |old(coroutines)| <= |coroutines| && Everyone() == Turns(code, old(Everyone()), i)
      {
        if coroutines[i].done { continue; }
        var co := coroutines[i];
        var b := code(co.name, co.resumed, state);
        co := co.(resumed := co.resumed + 1);
        state, trace := b.state, trace + [i];
        if b.ending.Panics? { co := co.(panicErr := Some(b.ending.message)); }
        if b.ending != Yielded { co := co.(done := true); }
        coroutines := coroutines[i := co] + Fresh(b.started);
      }
    }

    method AllDone() returns (r: bool)
      ensures r <==> forall i :: 0 <= i < |coroutines| ==> coroutines[i].done
    {
      for i := 0 to |coroutines|
        invariant forall j :: 0 <= j < i ==> coroutines[j].done
      {
        if !coroutines[i].done { return false; }
      }
      return true;
    }

    /** The first recorded panic in creation order. */
    method FirstPanic() returns (r: Option<string>)
      ensures r.None? <==> forall i :: 0 <= i < |coroutines| ==> coroutines[i].panicErr.None?
      ensures r.Some? ==>
        exists i :: 0 <= i < |coroutines| && coroutines[i].panicErr == r && forall j :: 0 <= j < i ==> coroutines[j].panicErr.None?
    {
      for i := 0 to |coroutines|
        invariant forall j :: 0 <= j < i ==> coroutines[j].panicErr.None?
      {
        if coroutines[i].panicErr.Some? { return coroutines[i].panicErr; }
      }
      return None;
    }
  }
}
