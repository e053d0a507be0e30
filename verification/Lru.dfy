/** The worker's bounded cache: a list and a map that together are one sequence of
    keys in order of use. */
module Lru {
  import opened Events

  datatype Entry<K, V> = Entry(key: K, value: V)

  /** Most recently used first. */
  type Recency<K, V> = seq<Entry<K, V>>

  function Lookup<K(==), V>(c: Recency<K, V>, key: K): Option<V>
  {
    if c == [] then None else if c[0].key == key then Some(c[0].value) else Lookup(c[1..], key)
  }

  function Without<K(==), V>(c: Recency<K, V>, key: K): Recency<K, V>
  {
    if c == [] then [] else (if c[0].key == key then [] else [c[0]]) + Without(c[1..], key)
  }

  function Used<K(==), V>(c: Recency<K, V>, key: K): Recency<K, V>
  {
    match Lookup(c, key)
    case None => c
    case Some(v) => [Entry(key, v)] + Without(c, key)
  }

  function Stored<K(==), V>(c: Recency<K, V>, capacity: int, key: K, value: V): Recency<K, V>
  {
    var c' := [Entry(key, value)] + Without(c, key);
    if Lookup(c, key).None? && |c'| > capacity then c'[..|c'| - 1] else c'
  }

  datatype Op<K, V> = GetOp(key: K) | PutOp(key: K, value: V) | DeleteOp(key: K)

  function Step<K(==), V>(c: Recency<K, V>, capacity: int, op: Op<K, V>): Recency<K, V>
  {
    match op
    case GetOp(key) => Used(c, key)
    case PutOp(key, value) => Stored(c, capacity, key, value)
    case DeleteOp(key) => Without(c, key)
  }

  function After<K(==), V>(capacity: int, ops: seq<Op<K, V>>): Recency<K, V>
  {
    if ops == [] then [] else Step(After(capacity, ops[..|ops| - 1]), capacity, ops[|ops| - 1])
  }

  /** The value last put under the key, unless it was deleted since. */
  function LastPut<K(==), V>(ops: seq<Op<K, V>>, key: K): Option<V>
  {
    if ops == [] then None
    else match ops[|ops| - 1]
      case PutOp(k, v) => if k == key then Some(v) else LastPut(ops[..|ops| - 1], key)
      case DeleteOp(k) => if k == key then None else LastPut(ops[..|ops| - 1], key)
      case GetOp(_) => LastPut(ops[..|ops| - 1], key)
  }

  /** When the key was last got or put, counting operations from 1. */
  function LastUse<K(==), V>(ops: seq<Op<K, V>>, key: K): nat
  {
    if ops == [] then 0
    else if !ops[|ops| - 1].DeleteOp? && ops[|ops| - 1].key == key then |ops|
    else LastUse(ops[..|ops| - 1], key)
  }

  /** Every entry holds what was last put, and earlier entries were used later. */
  ghost predicate Faithful<K, V>(c: Recency<K, V>, ops: seq<Op<K, V>>)
  {
    c == [] ||
    (&& LastPut(ops, c[0].key) == Some(c[0].value)
     && (forall x :: x in c[1..] ==> LastUse(ops, x.key) < LastUse(ops, c[0].key))
     && Faithful(c[1..], ops))
  }

  ghost predicate Lacks<K, V>(c: Recency<K, V>, key: K)
  {
    forall x :: x in c ==> x.key != key
  }

  /** Taking a key out leaves the others. */
  lemma {:induction false} WithoutMembers<K, V>(c: Recency<K, V>, key: K)
    ensures forall x :: x in Without(c, key) ==> x in c
    ensures forall x :: x in c && x.key != key ==> x in Without(c, key)
    ensures |Without(c, key)| <= |c| && Lacks(Without(c, key), key)
    ensures match Lookup(c, key)
      case None => Without(c, key) == c
      case Some(v) => Entry(key, v) in c && |Without(c, key)| < |c|
  {
    if c != [] {
      WithoutMembers(c[1..], key);
      assert c == [c[0]] + c[1..];
    }
  }

  lemma {:induction false} FaithfulMember<K, V>(c: Recency<K, V>, ops: seq<Op<K, V>>, x: Entry<K, V>)
    requires Faithful(c, ops) && x in c
    ensures LastPut(ops, x.key) == Some(x.value)
  {
    if x != c[0] { FaithfulMember(c[1..], ops, x); }
  }

  lemma {:induction false} WithoutFaithful<K, V>(c: Recency<K, V>, key: K, ops: seq<Op<K, V>>)
    requires Faithful(c, ops)
    ensures Faithful(Without(c, key), ops)
  {
    if c != [] {
      WithoutFaithful(c[1..], key, ops);
      WithoutMembers(c[1..], key);
      if c[0].key != key { assert Without(c, key)[1..] == Without(c[1..], key); } else { assert Without(c, key) == Without(c[1..], key); }
    }
  }

  /** An operation on another key changes nothing for these. */
  lemma {:induction false} OtherOp<K, V>(c: Recency<K, V>, ops: seq<Op<K, V>>, op: Op<K, V>)
    requires Faithful(c, ops) && Lacks(c, op.key)
    ensures Faithful(c, ops + [op])
  {
    assert (ops + [op])[..|ops|] == ops;
    if c != [] { OtherOp(c[1..], ops, op); }
  }

  lemma {:induction false} LastUseBound<K, V>(ops: seq<Op<K, V>>, key: K)
    ensures LastUse(ops, key) <= |ops|
  {
    if ops != [] { LastUseBound(ops[..|ops| - 1], key); }
  }

  lemma {:induction false} TakeFaithful<K, V>(c: Recency<K, V>, n: nat, ops: seq<Op<K, V>>)
    requires Faithful(c, ops) && n <= |c|
    ensures Faithful(c[..n], ops)
  {
    if n > 0 {
      TakeFaithful(c[1..], n - 1, ops);
      assert c[..n][1..] == c[1..][..n - 1];
    }
  }

  /** The key just used comes first. */
  lemma FrontFaithful<K, V>(rest: Recency<K, V>, ops: seq<Op<K, V>>, op: Op<K, V>, value: V)
    requires Faithful(rest, ops) && Lacks(rest, op.key)
    requires op == PutOp(op.key, value) || (op.GetOp? && LastPut(ops, op.key) == Some(value))
    ensures Faithful([Entry(op.key, value)] + rest, ops + [op])
  {
    var ops' := ops + [op];
    assert ops'[..|ops|] == ops;
    OtherOp(rest, ops, op);
    forall x | x in rest ensures LastUse(ops', x.key) < LastUse(ops', op.key) { LastUseBound(ops, x.key); }
    assert ([Entry(op.key, value)] + rest)[1..] == rest;
  }

  lemma StepFaithful<K, V>(c: Recency<K, V>, capacity: nat, ops: seq<Op<K, V>>, op: Op<K, V>)
    requires Faithful(c, ops) && |c| <= capacity && capacity >= 1
    ensures Faithful(Step(c, capacity, op), ops + [op]) && |Step(c, capacity, op)| <= capacity
  {
    hide Faithful, LastPut, LastUse, Without, Lookup;
    var key, rest := op.key, Without(c, op.key);
    WithoutMembers(c, key);
    WithoutFaithful(c, key, ops);
    match op {
      case GetOp(_) =>
        match Lookup(c, key) {
          case None => OtherOp(c, ops, op);
          case Some(v) => FaithfulMember(c, ops, Entry(key, v)); FrontFaithful(rest, ops, op, v);
        }
      case PutOp(_, v) =>
        FrontFaithful(rest, ops, op, v);
        TakeFaithful([Entry(key, v)] + rest, |rest|, ops + [op]);
      case DeleteOp(_) => OtherOp(rest, ops, op);
    }
  }

  /** Over any sequence of operations the cache stays within its capacity, holds for
      each key the value last put, and lists its keys from the last used to the least
      recently used. */
  lemma {:induction false} CacheIsFaithful<K, V>(capacity: nat, ops: seq<Op<K, V>>)
    requires capacity >= 1
    ensures Faithful(After(capacity, ops), ops) && |After(capacity, ops)| <= capacity
  {
    hide Faithful, Step;
    if ops == [] {
      EmptyFaithful(ops);
    } else {
      var pre := ops[..|ops| - 1];
      CacheIsFaithful(capacity, pre);
      assert ops == pre + [ops[|ops| - 1]];
      StepFaithful(After(capacity, pre), capacity, pre, ops[|ops| - 1]);
    }
  }

  lemma EmptyFaithful<K, V>(ops: seq<Op<K, V>>)
    ensures Faithful([], ops)
  {
  }

  /** In index form: keys are distinct and each was used later than the next. */
  lemma {:induction false} RecencyOrder<K, V>(c: Recency<K, V>, ops: seq<Op<K, V>>, i: nat, j: nat)
    requires Faithful(c, ops) && i < j < |c|
    ensures c[i].key != c[j].key && LastUse(ops, c[i].key) > LastUse(ops, c[j].key)
  {
    if i == 0 { assert c[j] in c[1..]; } else { RecencyOrder(c[1..], ops, i - 1, j - 1); }
  }

  /** A put that overflows evicts exactly the least recently used key. */
  lemma EvictsLeastRecentlyUsed<K, V>(capacity: nat, ops: seq<Op<K, V>>, key: K, value: V)
    requires capacity >= 1 && Lookup(After(capacity, ops), key).None? && |After(capacity, ops)| == capacity
    ensures var c, c' := After(capacity, ops), After(capacity, ops + [PutOp(key, value)]);
      && c' == [Entry(key, value)] + c[..capacity - 1]
      && forall x :: x in c' && x.key != key ==> LastUse(ops, x.key) > LastUse(ops, c[capacity - 1].key)
  {
    var c := After(capacity, ops);
    assert (ops + [PutOp(key, value)])[..|ops|] == ops;
    WithoutMembers(c, key);
    CacheIsFaithful(capacity, ops);
    hide Faithful, Lookup, Without, LastUse;
    assert ([Entry(key, value)] + c)[..capacity] == [Entry(key, value)] + c[..capacity - 1];
    forall i | 0 <= i < capacity - 1 ensures LastUse(ops, c[i].key) > LastUse(ops, c[capacity - 1].key) {
      RecencyOrder(c, ops, i, capacity - 1);
    }
  }

  /** A hit returns the value last put. */
  lemma HitIsLastPut<K, V>(capacity: nat, ops: seq<Op<K, V>>, key: K)
    requires capacity >= 1 && Lookup(After(capacity, ops), key).Some?
    ensures Lookup(After(capacity, ops), key) == LastPut(ops, key)
  {
    var c := After(capacity, ops);
    CacheIsFaithful(capacity, ops);
    WithoutMembers(c, key);
    FaithfulMember(c, ops, Entry(key, Lookup(c, key).value));
  }

  /** Storing puts the entry first, whatever was there under its key, and drops nothing
      but, when a new key finds the cache full, the least recently used entry. */
  lemma StoredMeans<K, V>(c: Recency<K, V>, capacity: nat, key: K, value: V)
    requires 1 <= capacity && |c| <= capacity
    ensures var c', rest := Stored(c, capacity, key, value), Without(c, key);
      && c' != [] && c'[0] == Entry(key, value)
      && (Lookup(c, key).None? ==> rest == c)
      && c'[1..] == (if Lookup(c, key).None? && |c| == capacity then c[..|c| - 1] else rest)
  {
    hide Without, Lookup;
    WithoutMembers(c, key);
    var all := [Entry(key, value)] + Without(c, key);
    assert all[1..] == Without(c, key);
    if Lookup(c, key).None? && |c| == capacity { assert all[..|all| - 1][1..] == c[..|c| - 1]; }
  }

  /** Whatever the operation, any other key keeps its value, unless it is the last of a
      full cache and a new key is put. */
  lemma OthersStay<K, V>(c: Recency<K, V>, capacity: nat, op: Op<K, V>, other: K)
    requires 1 <= capacity && |c| <= capacity && other != op.key
    requires op.PutOp? && Lookup(c, op.key).None? && |c| == capacity ==> other != c[|c| - 1].key
    ensures Lookup(Step(c, capacity, op), other) == Lookup(c, other)
  {
    hide Without, Lookup;
    WithoutMembers(c, op.key);
    LookupWithout(c, op.key, other);
    if op.PutOp? {
      StoredMeans(c, capacity, op.key, op.value);
      var c' := Step(c, capacity, op);
      assert c' == [c'[0]] + c'[1..];
      LookupPush(c'[0], c'[1..], other);
      if Lookup(c, op.key).None? && |c| == capacity { LookupTake(c, other); }
    } else if op.GetOp? && Lookup(c, op.key).Some? {
      LookupPush(Entry(op.key, Lookup(c, op.key).value), Without(c, op.key), other);
    }
  }

  lemma LookupPush<K, V>(x: Entry<K, V>, c: Recency<K, V>, key: K)
    requires x.key != key
    ensures Lookup([x] + c, key) == Lookup(c, key)
  {
    assert ([x] + c)[1..] == c;
  }

  lemma {:induction false} LookupWithout<K, V>(c: Recency<K, V>, key: K, other: K)
    requires other != key
    ensures Lookup(Without(c, key), other) == Lookup(c, other)
  {
    if c != [] {
      LookupWithout(c[1..], key, other);
      if c[0].key != key { assert Without(c, key)[1..] == Without(c[1..], key); } else { assert Without(c, key) == Without(c[1..], key); }
    }
  }

  lemma {:induction false} LookupTake<K, V>(c: Recency<K, V>, key: K)
    requires c != [] && key != c[|c| - 1].key
    ensures Lookup(c[..|c| - 1], key) == Lookup(c, key)
  {
    if |c| > 1 {
      assert c[1..][|c| - 2] == c[|c| - 1];
      LookupTake(c[1..], key);
      assert c[..|c| - 1][1..] == c[1..][..|c| - 2];
    }
  }

  // ------------------------------------------------------------------- the object

  /** A list without one of its elements. */
  function Unlink(ll: seq<nat>, el: nat): seq<nat>
  {
    if ll == [] then [] else (if ll[0] == el then [] else [ll[0]]) + Unlink(ll[1..], el)
  }

  /** The entries of the list's elements, front to back. */
  function Entries<K, V>(ll: seq<nat>, cells: map<nat, Entry<K, V>>): Recency<K, V>
  {
    if ll == [] then []
    else (if ll[0] in cells then [cells[ll[0]]] else []) + Entries(ll[1..], cells)
  }

  /** Each key of the map points to the list element that holds it, and back. */
  ghost predicate Linked<K, V>(ll: seq<nat>, cells: map<nat, Entry<K, V>>, items: map<K, nat>)
  {
    && (forall i, j :: 0 <= i < j < |ll| ==> ll[i] != ll[j])
    && (forall el :: el in ll <==> el in cells)
    && (forall k :: k in items ==> items[k] in cells && cells[items[k]].key == k)
    && (forall el :: el in cells ==> cells[el].key in items && items[cells[el].key] == el)
  }

  lemma {:induction false} UnlinkMembers(ll: seq<nat>, el: nat)
    requires forall i, j :: 0 <= i < j < |ll| ==> ll[i] != ll[j]
    ensures forall x :: x in Unlink(ll, el) <==> x in ll && x != el
    ensures var r := Unlink(ll, el); forall i, j :: 0 <= i < j < |r| ==> r[i] != r[j]
  {
    if ll != [] {
      UnlinkMembers(ll[1..], el);
      assert ll == [ll[0]] + ll[1..];
      assert ll[0] !in ll[1..];
      assert ll[0] == el ==> Unlink(ll, el) == Unlink(ll[1..], el);
      assert ll[0] != el ==> Unlink(ll, el) == [ll[0]] + Unlink(ll[1..], el);
    }
  }

  /** Unlinking an element removes its key from the sequence. */
  lemma {:induction false} UnlinkEntries<K, V>(ll: seq<nat>, cells: map<nat, Entry<K, V>>, cells': map<nat, Entry<K, V>>, el: nat, key: K)
    requires forall x :: x in ll ==> x in cells && (cells[x].key == key <==> x == el)
    requires forall x :: x in ll && x != el ==> x in cells' && cells'[x] == cells[x]
    ensures Entries(Unlink(ll, el), cells') == Without(Entries(ll, cells), key)
  {
    if ll != [] {
      UnlinkEntries(ll[1..], cells, cells', el, key);
      var e := cells[ll[0]];
      assert Entries(ll, cells)[1..] == Entries(ll[1..], cells) && Entries(ll, cells)[0] == e;
      if ll[0] != el { assert Unlink(ll, el)[1..] == Unlink(ll[1..], el); } else { assert Unlink(ll, el) == Unlink(ll[1..], el); }
    }
  }

  lemma {:induction false} LookupEntries<K, V>(ll: seq<nat>, cells: map<nat, Entry<K, V>>, el: nat, key: K)
    requires forall x :: x in ll ==> x in cells && (cells[x].key == key <==> x == el)
    ensures Lookup(Entries(ll, cells), key) == if el in ll then Some(cells[el].value) else None
  {
    if ll != [] {
      LookupEntries(ll[1..], cells, el, key);
      var e := cells[ll[0]];
      assert Entries(ll, cells)[1..] == Entries(ll[1..], cells) && Entries(ll, cells)[0] == e;
    }
  }

  /** The cell an element holds was replaced by one with the same key. */
  lemma {:induction false} EntriesFrame<K, V>(ll: seq<nat>, cells: map<nat, Entry<K, V>>, cells': map<nat, Entry<K, V>>)
    requires forall x :: x in ll ==> x in cells && x in cells' && cells'[x] == cells[x]
    ensures Entries(ll, cells') == Entries(ll, cells)
  {
    if ll != [] { EntriesFrame(ll[1..], cells, cells'); }
  }

  lemma {:induction false} EntriesLength<K, V>(ll: seq<nat>, cells: map<nat, Entry<K, V>>)
    requires forall x :: x in ll ==> x in cells
    ensures |Entries(ll, cells)| == |ll|
  {
    if ll != [] { EntriesLength(ll[1..], cells); }
  }

  /** Dropping the last element drops the last entry. */
  lemma {:induction false} EntriesTake<K, V>(ll: seq<nat>, cells: map<nat, Entry<K, V>>, cells': map<nat, Entry<K, V>>)
    requires ll != [] && (forall x :: x in ll ==> x in cells)
    requires forall x :: x in ll[..|ll| - 1] ==> x in cells' && cells'[x] == cells[x]
    ensures |Entries(ll, cells)| == |ll| && Entries(ll[..|ll| - 1], cells') == Entries(ll, cells)[..|ll| - 1]
  {
    EntriesLength(ll, cells);
    if |ll| > 1 {
      EntriesTake(ll[1..], cells, cells');
      assert ll[1..][..|ll| - 2] == ll[..|ll| - 1][1..];
      assert Entries(ll, cells) == [cells[ll[0]]] + Entries(ll[1..], cells);
    }
  }

  /** What holds of the element a key points to. */
  lemma KeyElement<K, V>(ll: seq<nat>, cells: map<nat, Entry<K, V>>, items: map<K, nat>, key: K)
    requires Linked(ll, cells, items)
    ensures Lookup(Entries(ll, cells), key) == if key in items then Some(cells[items[key]].value) else None
    ensures key in items ==> Entries(Unlink(ll, items[key]), cells) == Without(Entries(ll, cells), key)
    ensures key !in items ==> Without(Entries(ll, cells), key) == Entries(ll, cells)
  {
    WithoutMembers(Entries(ll, cells), key);
    if key in items {
      LookupEntries(ll, cells, items[key], key);
      UnlinkEntries(ll, cells, cells, items[key], key);
    } else {
      LookupAbsent(ll, cells, key);
    }
  }

  lemma {:induction false} LookupAbsent<K, V>(ll: seq<nat>, cells: map<nat, Entry<K, V>>, key: K)
    requires forall x :: x in ll ==> x in cells && cells[x].key != key
    ensures Lookup(Entries(ll, cells), key) == None
  {
    if ll != [] {
      LookupAbsent(ll[1..], cells, key);
      assert Entries(ll, cells)[1..] == Entries(ll[1..], cells);
    }
  }

  lemma LinkedPush<K, V>(ll: seq<nat>, cells: map<nat, Entry<K, V>>, items: map<K, nat>, el: nat, key: K, value: V)
    requires Linked(ll, cells, items) && el !in cells && key !in items
    ensures Linked([el] + ll, cells[el := Entry(key, value)], items[key := el])
  {
    var ll' := [el] + ll;
    assert forall i :: 0 < i < |ll'| ==> ll'[i] == ll[i - 1] && ll'[i] in ll;
  }

  lemma EntriesPush<K, V>(ll: seq<nat>, cells: map<nat, Entry<K, V>>, items: map<K, nat>, el: nat, entry: Entry<K, V>)
    requires Linked(ll, cells, items) && el !in cells
    ensures Entries([el] + ll, cells[el := entry]) == [entry] + Entries(ll, cells)
  {
    assert ([el] + ll)[1..] == ll;
    EntriesFrame(ll, cells, cells[el := entry]);
  }

  lemma LinkedFront<K, V>(ll: seq<nat>, cells: map<nat, Entry<K, V>>, items: map<K, nat>, el: nat)
    requires Linked(ll, cells, items) && el in cells
    ensures Linked([el] + Unlink(ll, el), cells, items)
  {
    hide Unlink;
    UnlinkMembers(ll, el);
    var rest := Unlink(ll, el);
    forall i | 0 <= i < |rest| ensures rest[i] != el { assert rest[i] in rest; }
  }

  lemma EntriesFront<K, V>(ll: seq<nat>, cells: map<nat, Entry<K, V>>, items: map<K, nat>, el: nat)
    requires Linked(ll, cells, items) && el in cells
    ensures Entries([el] + Unlink(ll, el), cells) == [cells[el]] + Without(Entries(ll, cells), cells[el].key)
  {
    hide Unlink, Without;
    UnlinkEntries(ll, cells, cells, el, cells[el].key);
    assert ([el] + Unlink(ll, el))[1..] == Unlink(ll, el);
  }

  lemma LinkedUnlink<K, V>(ll: seq<nat>, cells: map<nat, Entry<K, V>>, items: map<K, nat>, key: K)
    requires Linked(ll, cells, items) && key in items
    ensures Linked(Unlink(ll, items[key]), cells - {items[key]}, items - {key})
    ensures Entries(Unlink(ll, items[key]), cells - {items[key]}) == Without(Entries(ll, cells), key)
  {
    hide Entries, Unlink, Without;
    UnlinkMembers(ll, items[key]);
    UnlinkEntries(ll, cells, cells - {items[key]}, items[key], key);
  }

  lemma LinkedPop<K, V>(ll: seq<nat>, cells: map<nat, Entry<K, V>>, items: map<K, nat>)
    requires Linked(ll, cells, items) && ll != []
    ensures var n := |ll| - 1;
      ll[n] in cells && Linked(ll[..n], cells - {ll[n]}, items - {cells[ll[n]].key})
  {
    var n := |ll| - 1;
    forall el ensures el in ll[..n] <==> el in ll && el != ll[n] {
      if el in ll && el != ll[n] { var i :| 0 <= i < |ll| && ll[i] == el; assert ll[..n][i] == el; }
    }
  }

  lemma PoppedEntries<K, V>(ll: seq<nat>, cells: map<nat, Entry<K, V>>, items: map<K, nat>)
    requires Linked(ll, cells, items) && ll != []
    ensures |Entries(ll, cells)| == |ll| && Entries(ll[..|ll| - 1], cells - {ll[|ll| - 1]}) == Entries(ll, cells)[..|ll| - 1]
  {
    hide Entries;
    EntriesTake(ll, cells, cells - {ll[|ll| - 1]});
  }

  class ExecutionCache<K(==), V> {
    const capacity: int
    // container/list: the elements, front to back, and what each holds.
    var ll: seq<nat>
    var cells: map<nat, Entry<K, V>>
    var items: map<K, nat>
    var nextElement: nat

    ghost predicate Valid()
      reads this
    {
      Linked(ll, cells, items) && forall el :: el in cells ==> el < nextElement
    }

    function Contents(): Recency<K, V>
      reads this
    {
      Entries(ll, cells)
    }

    constructor (capacity: int)
      ensures Valid() && Contents() == [] && this.capacity == capacity
    {
      this.capacity := capacity;
      ll, cells, items, nextElement := [], map[], map[], 0;
    }

    method MoveToFront(el: nat)
      requires Valid() && el in cells
      modifies this
      ensures Valid() && items == old(items) && cells == old(cells)
      ensures ll == [el] + Unlink(old(ll), el)
      ensures Contents() == [cells[el]] + Without(old(Contents()), cells[el].key)
    {
      hide Linked, Entries, Unlink, Without;
      LinkedFront(ll, cells, items, el);
      EntriesFront(ll, cells, items, el);
      ll := [el] + Unlink(ll, el);
    }

    method Get(key: K) returns (r: Option<V>)
      requires Valid()
      modifies this
      ensures Valid() && r == Lookup(old(Contents()), key) && Contents() == Used(old(Contents()), key)
    {
      KeyElement(ll, cells, items, key);
      if key !in items { return None; }
      MoveToFront(items[key]);
      r := Some(cells[items[key]].value);
    }

    /** Refresh the key's entry, or insert it and evict the back of the list if there
        are too many. */
    method Put(key: K, value: V)
      requires Valid()
      modifies this
      ensures Valid() && Contents() == Stored(old(Contents()), capacity, key, value)
    {
      hide Lookup, Without, Entries, Unlink;
      KeyElement(ll, cells, items, key);
      if key in items {
        var el := items[key];
        MoveToFront(el);
        Rewrite(el, value);
      } else {
        PushFront(key, value);
        EntriesSize(ll, cells, items);
        if |ll| > capacity { RemoveBack(); }
      }
    }

    method Rewrite(el: nat, value: V)
      requires Valid() && ll != [] && el == ll[0] && el in cells
      modifies this
      ensures Valid() && Contents() == [Entry(old(cells)[el].key, value)] + old(Contents())[1..]
      ensures old(Contents()) != []
    {
      cells := cells[el := cells[el].(value := value)];
      EntriesFrame(ll[1..], old(cells), cells);
      assert old(Contents())[1..] == Entries(ll[1..], old(cells));
    }

    method PushFront(key: K, value: V)
      requires Valid() && key !in items
      modifies this
      ensures Valid() && Contents() == [Entry(key, value)] + old(Contents()) && ll != []
    {
      hide Linked, Entries;
      var el := nextElement;
      LinkedPush(ll, cells, items, el, key, value);
      EntriesPush(ll, cells, items, el, Entry(key, value));
      nextElement := nextElement + 1;
      ll := [el] + ll;
      cells := cells[el := Entry(key, value)];
      items := items[key := el];
    }

    method RemoveBack()
      requires Valid() && ll != []
      modifies this
      ensures Valid() && Contents() == old(Contents())[..|old(Contents())| - 1]
      ensures old(Contents()) != []
    {
      hide Linked, Entries;
      LinkedPop(ll, cells, items);
      PoppedEntries(ll, cells, items);
      var oldest := ll[|ll| - 1];
      var key := cells[oldest].key;
      ll := ll[..|ll| - 1];
      cells := cells - {oldest};
      items := items - {key};
    }

    method Delete(key: K)
      requires Valid()
      modifies this
      ensures Valid() && Contents() == Without(old(Contents()), key)
    {
      hide Linked, Entries, Unlink, Without;
      KeyElement(ll, cells, items, key);
      if key in items {
        var el := items[key];
        LinkedUnlink(ll, cells, items, key);
        ll := Unlink(ll, el);
        cells := cells - {el};
        items := items - {key};
      }
    }
  }

  lemma EntriesSize<K, V>(ll: seq<nat>, cells: map<nat, Entry<K, V>>, items: map<K, nat>)
    requires Linked(ll, cells, items)
    ensures |Entries(ll, cells)| == |ll|
  {
    EntriesLength(ll, cells);
  }
}
