/** Signals on their way from history to their handlers.  A handler is what it
    appends to `handled`: it neither panics nor registers handlers. */
module Signals {
  import opened Events
  import opened Replayer

  /** The signal part of an Execution. */
  datatype Inbox = Inbox(handlers: set<string>, pending: seq<Signal>, handled: seq<Signal>)

  /** The signals among these that some handler claims, in order. */
  function Claimed(handlers: set<string>, signals: seq<Signal>): seq<Signal>
  {
    if signals == [] then []
    else
      var s := signals[|signals| - 1];
      Claimed(handlers, signals[..|signals| - 1]) + if s.name in handlers then [s] else []
  }

  function Unclaimed(handlers: set<string>, signals: seq<Signal>): seq<Signal>
  {
    if signals == [] then []
    else
      var s := signals[|signals| - 1];
      Unclaimed(handlers, signals[..|signals| - 1]) + if s.name in handlers then [] else [s]
  }

  /** drainSignals. */
  function Drain(b: Inbox): Inbox
  {
    b.(pending := Unclaimed(b.handlers, b.pending), handled := b.handled + Claimed(b.handlers, b.pending))
  }

  /** The signals recorded by these events, in order. */
  function SignalsIn(events: seq<HistoryEvent>): seq<Signal>
  {
    if events == [] then []
    else
      var a := events[|events| - 1].attributes;
      SignalsIn(events[..|events| - 1]) + if a.WorkflowExecutionSignaled? then [Signal(a.signalName, a.input)] else []
  }

  /** Loading queues, registering drains, and so does every round of the pump. */
  datatype InboxOp = Load(events: seq<HistoryEvent>) | Register(name: string) | Pump

  function Act(b: Inbox, op: InboxOp): Inbox
  {
    match op
    case Load(events) => b.(pending := b.pending + SignalsIn(events))
    case Register(name) => Drain(b.(handlers := b.handlers + {name}))
    case Pump => Drain(b)
  }

  function ActAll(ops: seq<InboxOp>): Inbox
  {
    if ops == [] then Inbox({}, [], []) else Act(ActAll(ops[..|ops| - 1]), ops[|ops| - 1])
  }

  function Recorded(ops: seq<InboxOp>): seq<Signal>
  {
    if ops == [] then []
    else
      var op := ops[|ops| - 1];
      Recorded(ops[..|ops| - 1]) + if op.Load? then SignalsIn(op.events) else []
  }

  /** The signals of one name, in order. */
  function Named(signals: seq<Signal>, name: string): seq<Signal>
  {
    if signals == [] then []
    else
      var s := signals[|signals| - 1];
      Named(signals[..|signals| - 1], name) + if s.name == name then [s] else []
  }

  lemma {:induction false} NamedConcat(a: seq<Signal>, b: seq<Signal>, name: string)
    ensures Named(a + b, name) == Named(a, name) + Named(b, name)
  {
    if b == [] {
      assert a + b == a;
    } else {
      NamedConcat(a, b[..|b| - 1], name);
      assert (a + b)[..|a + b| - 1] == a + b[..|b| - 1];
    }
  }

  lemma {:induction false} NamedPush(a: seq<Signal>, s: Signal, name: string)
    ensures Named(a + [s], name) == if s.name == name then Named(a, name) + [s] else Named(a, name)
  {
    assert (a + [s])[..|a|] == a;
  }

  lemma {:induction false} DrainPush(handlers: set<string>, a: seq<Signal>, s: Signal)
    ensures Claimed(handlers, a + [s]) == if s.name in handlers then Claimed(handlers, a) + [s] else Claimed(handlers, a)
    ensures Unclaimed(handlers, a + [s]) == if s.name in handlers then Unclaimed(handlers, a) else Unclaimed(handlers, a) + [s]
  {
    assert (a + [s])[..|a|] == a;
  }

  lemma NothingPending(handlers: set<string>, name: string)
    ensures Claimed(handlers, []) == [] && Unclaimed(handlers, []) == [] && Named([], name) == []
  {
  }

  /** Draining hands over all the signals of a name or none. */
  lemma {:induction false} DrainByName(handlers: set<string>, signals: seq<Signal>, name: string)
    ensures Named(Claimed(handlers, signals), name) == if name in handlers then Named(signals, name) else []
    ensures Named(Unclaimed(handlers, signals), name) == if name in handlers then [] else Named(signals, name)
  {
    hide Named, Claimed, Unclaimed;
    NothingPending(handlers, name);
    if signals != [] {
      var pre, s := signals[..|signals| - 1], signals[|signals| - 1];
      assert signals == pre + [s];
      DrainByName(handlers, pre, name);
      DrainPush(handlers, pre, s);
      NamedPush(pre, s, name);
      NamedPush(Claimed(handlers, pre), s, name);
      NamedPush(Unclaimed(handlers, pre), s, name);
    }
  }

  lemma DrainKeeps(b: Inbox, name: string)
    ensures Named(Drain(b).handled, name) + Named(Drain(b).pending, name) == Named(b.handled, name) + Named(b.pending, name)
  {
    DrainByName(b.handlers, b.pending, name);
    NamedConcat(b.handled, Claimed(b.handlers, b.pending), name);
  }

  /** Over any sequence of loads, registrations and rounds, the payloads delivered
      under a name followed by those still pending are exactly the recorded ones, in
      the order they were recorded: none is lost, repeated or overtaken. */
  lemma {:induction false} SignalsConserved(ops: seq<InboxOp>, name: string)
    ensures Named(ActAll(ops).handled, name) + Named(ActAll(ops).pending, name) == Named(Recorded(ops), name)
  {
    if ops != [] {
      var pre, op := ops[..|ops| - 1], ops[|ops| - 1];
      var b := ActAll(pre);
      SignalsConserved(pre, name);
      assert !op.Load? ==> Recorded(ops) == Recorded(pre);
      match op {
        case Load(events) =>
          NamedConcat(b.pending, SignalsIn(events), name);
          NamedConcat(Recorded(pre), SignalsIn(events), name);
        case Register(n) => DrainKeeps(b.(handlers := b.handlers + {n}), name);
        case Pump => DrainKeeps(b, name);
      }
    }
  }

  /** After a registration or a round, every signal recorded under a registered name
      has been delivered. */
  lemma HandledInFull(ops: seq<InboxOp>, name: string)
    requires ops != [] && !ops[|ops| - 1].Load? && name in ActAll(ops).handlers
    ensures Named(ActAll(ops).handled, name) == Named(Recorded(ops), name)
  {
    var b, op := ActAll(ops[..|ops| - 1]), ops[|ops| - 1];
    SignalsConserved(ops, name);
    DrainByName(ActAll(ops).handlers, b.pending, name);
  }
}
