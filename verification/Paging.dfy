/** Following page tokens to the end reads the same as one read. */
module Paging {
  import opened Events

  // -------------------------------------------------------------------- history

  const DEFAULT_HISTORY_PAGE_SIZE: int := 1000
  const DEFAULT_LIST_PAGE_SIZE: int := 50

  /** WHERE event_id > after ORDER BY event_id LIMIT limit, over rows in id order. */
  function ListHistoryEvents(h: seq<HistoryEvent>, after: int, limit: nat): seq<HistoryEvent>
  {
    if h == [] || limit == 0 then []
    else if h[0].eventId > after then [h[0]] + ListHistoryEvents(h[1..], after, limit - 1)
    else ListHistoryEvents(h[1..], after, limit)
  }

  /** Where in a history of n events reading after this id begins. */
  function Start(after: int, n: nat): nat
  {
    if after < 0 then 0 else if after > n then n else after
  }

  function Min(a: nat, b: nat): nat { if a <= b then a else b }

  lemma {:induction false} SelectedSlice(h: seq<HistoryEvent>, base: nat, after: int, limit: nat)
    requires forall i :: 0 <= i < |h| ==> h[i].eventId == base + i + 1
    ensures var k := Start(after - base, |h|); ListHistoryEvents(h, after, limit) == h[k..Min(k + limit, |h|)]
    decreases |h|
  {
    if h != [] && limit > 0 {
      if h[0].eventId > after {
        SelectedSlice(h[1..], base + 1, after, limit - 1);
      } else {
        SelectedSlice(h[1..], base + 1, after, limit);
      }
    }
  }

  /** One page and, when it is full, the id to go on from. */
  method GetHistory(h: seq<HistoryEvent>, requested: int, token: Option<int>) returns (page: seq<HistoryEvent>, next: Option<int>)
    requires Dense(h)
    ensures var size, k := if requested <= 0 then DEFAULT_HISTORY_PAGE_SIZE else requested, Start(if token.Some? then token.value else 0, |h|);
      && page == h[k..Min(k + size, |h|)]
      && next == if |page| == size then Some(k + size) else None
  {
    var size := if requested <= 0 then DEFAULT_HISTORY_PAGE_SIZE else requested;
    var after := if token.Some? then token.value else 0;
    SelectedSlice(h, 0, after, size);
    page := ListHistoryEvents(h, after, size);
    next := None;
    if |page| == size { next := Some(page[|page| - 1].eventId); }
  }

  /** The client's loop: for any page size it ends, with the whole history in order. */
  method GetWorkflowHistory(h: seq<HistoryEvent>, requested: int) returns (events: seq<HistoryEvent>)
    requires Dense(h)
    ensures events == h
  {
    events := [];
    var token: Option<int> := None;
    while true
      invariant (token.None? && events == []) || (token.Some? && 0 <= token.value <= |h| && events == h[..token.value])
      decreases |h| - |events|, if token.None? then 1 else 0
    {
      var page, next := GetHistory(h, requested, token);
      events := events + page;
      if next.None? { return; }
      token := next;
    }
  }

  // -------------------------------------------------------------------- listing

  datatype Row = Row(startTime: int, workflowId: string, runId: string, status: string, taskQueue: string)

  predicate StringLess(a: string, b: string)
  {
    b != "" && (a == "" || a[0] < b[0] || (a[0] == b[0] && StringLess(a[1..], b[1..])))
  }

  /** (start_time, workflow_id, run_id) < (...), as a row comparison. */
  predicate Below(a: Row, b: Row)
  {
    || a.startTime < b.startTime
    || (a.startTime == b.startTime &&
        (StringLess(a.workflowId, b.workflowId) || (a.workflowId == b.workflowId && StringLess(a.runId, b.runId))))
  }

  lemma {:induction false} StringOrder(a: string, b: string, c: string)
    ensures !StringLess(a, a) && (StringLess(a, b) || StringLess(b, a) || a == b)
    ensures StringLess(a, b) && StringLess(b, c) ==> StringLess(a, c)
  {
    if a != "" && b != "" {
      StringOrder(a[1..], b[1..], if c == "" then "" else c[1..]);
      assert a[0] == b[0] && a[1..] == b[1..] ==> a == [a[0]] + a[1..] == b;
    } else if a != "" {
      StringOrder(a[1..], "", "");
    }
  }

  /** No two rows have the same primary key. */
  ghost predicate Keyed(s: set<Row>)
  {
    forall a, b :: a in s && b in s && a.workflowId == b.workflowId && a.runId == b.runId ==> a == b
  }

  lemma RowOrder(a: Row, b: Row, c: Row)
    ensures !Below(a, a) && (Below(a, b) && Below(b, c) ==> Below(a, c))
    ensures Below(a, b) || Below(b, a) || (a.workflowId == b.workflowId && a.runId == b.runId)
  {
    StringOrder(a.workflowId, b.workflowId, c.workflowId);
    StringOrder(a.runId, b.runId, c.runId);
  }

  ghost predicate IsTop(s: set<Row>, m: Row)
  {
    m in s && forall x :: x in s && x != m ==> Below(x, m)
  }

  lemma {:induction false} TopExists(s: set<Row>)
    requires Keyed(s) && s != {}
    ensures exists m :: IsTop(s, m)
    decreases |s|
  {
    var x :| x in s;
    if s == {x} {
      assert IsTop(s, x);
    } else {
      var rest := s - {x};
      assert s == rest + {x};
      TopExists(rest);
      var m :| IsTop(rest, m);
      RowOrder(x, m, x);
      if Below(x, m) {
        assert IsTop(s, m);
      } else {
        forall y | y in s && y != x ensures Below(y, x) { RowOrder(y, m, x); }
        assert IsTop(s, x);
      }
    }
  }

  /** ORDER BY start_time DESC, workflow_id DESC, run_id DESC. */
  ghost function Descending(s: set<Row>): seq<Row>
    requires Keyed(s)
    decreases |s|
  {
    if s == {} then [] else TopExists(s); var m :| IsTop(s, m); [m] + Descending(s - {m})
  }

  lemma {:induction false} DescendingMembers(s: set<Row>)
    requires Keyed(s)
    ensures |Descending(s)| == |s|
    ensures forall x :: x in Descending(s) <==> x in s
    decreases |s|
  {
    hide Descending, IsTop;
    if s == {} {
      NothingListed(s);
    } else {
      var m := FirstIsTop(s);
      DescendingMembers(s - {m});
      assert s == (s - {m}) + {m};
    }
  }

  lemma NothingListed(s: set<Row>)
    requires s == {}
    ensures Descending(s) == []
  {
  }

  /** It lists each row once, in strictly descending order. */
  lemma {:induction false} DescendingLists(s: set<Row>)
    requires Keyed(s)
    ensures |Descending(s)| == |s| && forall x :: x in Descending(s) <==> x in s
    ensures forall i, j :: 0 <= i < j < |Descending(s)| ==> Below(Descending(s)[j], Descending(s)[i])
    decreases |s|
  {
    hide Descending, Below;
    DescendingMembers(s);
    if s != {} {
      var m := FirstIsTop(s);
      var d, rest := Descending(s), Descending(s - {m});
      DescendingLists(s - {m});
      forall i, j | 0 <= i < j < |d| ensures Below(d[j], d[i]) {
        assert d[j] == rest[j - 1];
        if i == 0 { assert rest[j - 1] in rest; } else { assert d[i] == rest[i - 1]; }
      }
    }
  }

  /** The top row is the first. */
  lemma TopFirst(s: set<Row>, m: Row)
    requires Keyed(s) && IsTop(s, m)
    ensures Descending(s) == [m] + Descending(s - {m})
  {
    var d := Descending(s)[0];
    if d != m { RowOrder(d, m, d); }
  }

  function BelowCursor(s: set<Row>, cursor: Option<Row>): set<Row>
  {
    if cursor.None? then s else set x | x in s && Below(x, cursor.value)
  }

  lemma FirstIsTop(s: set<Row>) returns (m: Row)
    requires Keyed(s) && s != {}
    ensures IsTop(s, m) && m in s && Keyed(s - {m}) && Descending(s) == [m] + Descending(s - {m})
  {
    m := Descending(s)[0];
  }

  /** A cursor at the top row leaves out just that; one further down does not care
      whether the top row is there. */
  lemma BelowTop(s: set<Row>, m: Row, c: Row)
    requires IsTop(s, m) && c in s
    ensures BelowCursor(s, Some(c)) == if c == m then s - {m} else BelowCursor(s - {m}, Some(c))
  {
    RowOrder(m, c, m);
    RowOrder(c, m, c);
  }

  /** What is below the kth row of the listing is the rest of the listing. */
  lemma {:induction false} RestOfListing(s: set<Row>, k: nat)
    requires Keyed(s) && 1 <= k <= |Descending(s)|
    ensures Keyed(BelowCursor(s, Some(Descending(s)[k - 1])))
    ensures Descending(BelowCursor(s, Some(Descending(s)[k - 1]))) == Descending(s)[k..]
    decreases |s|
  {
    hide Descending, Below, IsTop, BelowCursor;
    DescendingLists(s);
    var m := FirstIsTop(s);
    var d, rest := Descending(s), Descending(s - {m});
    DescendingLists(s - {m});
    BelowTop(s, m, d[k - 1]);
    assert d[1..] == rest && d[k..] == rest[k - 1..];
    if k > 1 {
      assert d[k - 1] == rest[k - 2] && rest[k - 2] in rest;
      RestOfListing(s - {m}, k - 1);
    }
  }

  /** WHERE status and task_queue match; empty filters match everything. */
  predicate Matches(r: Row, status: string, taskQueue: string)
  {
    (status == "" || r.status == status) && (taskQueue == "" || r.taskQueue == taskQueue)
  }

  function Selected(table: set<Row>, status: string, taskQueue: string): set<Row>
  {
    set r | r in table && Matches(r, status, taskQueue)
  }

  /** The rows of a page, taken off the top one by one. */
  method TakeTop(s: set<Row>, limit: nat) returns (page: seq<Row>)
    requires Keyed(s)
    ensures page == Descending(s)[..Min(limit, |Descending(s)|)]
  {
    hide Descending, Below;
    page := [];
    var left := s;
    while |page| < limit && left != {}
      invariant Keyed(left) && Descending(s) == page + Descending(left) && |page| <= limit
      decreases |left|
    {
      TopExists(left);
      var m :| m in left && forall x :: x in left && x != m ==> Below(x, m);
      assert IsTop(left, m);
      TopFirst(left, m);
      page, left := page + [m], left - {m};
    }
    DescendingLists(left);
  }

  /** One page of the listing and, when it is full, the cursor to go on from. */
  method ListWorkflowExecutions(table: set<Row>, status: string, taskQueue: string, requested: int, cursor: Option<Row>)
    returns (page: seq<Row>, next: Option<Row>)
    requires Keyed(table)
    ensures var size, s := if requested <= 0 then DEFAULT_LIST_PAGE_SIZE else requested, BelowCursor(Selected(table, status, taskQueue), cursor);
      && Keyed(s) && page == Descending(s)[..Min(size, |Descending(s)|)]
      && next == if |page| == size then Some(page[size - 1]) else None
  {
    var size := if requested <= 0 then DEFAULT_LIST_PAGE_SIZE else requested;
    page := TakeTop(BelowCursor(Selected(table, status, taskQueue), cursor), size);
    next := None;
    if |page| == size { next := Some(page[|page| - 1]); }
  }

  /** A full page moves the cursor past exactly its rows. */
  lemma FullPage(s: set<Row>, rows: seq<Row>, cursor: Option<Row>, page: seq<Row>)
    requires Keyed(s) && Keyed(BelowCursor(s, cursor)) && Descending(s) == rows + Descending(BelowCursor(s, cursor))
    requires page != [] && page <= Descending(BelowCursor(s, cursor))
    ensures var next := Some(page[|page| - 1]);
      Keyed(BelowCursor(s, next)) && Descending(s) == rows + page + Descending(BelowCursor(s, next))
  {
    hide Descending, BelowCursor, Keyed;
    var k := |rows| + |page|;
    assert Descending(s)[k - 1] == page[|page| - 1];
    RestOfListing(s, k);
    assert Descending(s)[..k] == rows + page;
  }

  /** Following the tokens: for any page size it ends, with every matching row exactly
      once, in descending (start_time, workflow_id, run_id) order. */
  method ListAll(table: set<Row>, status: string, taskQueue: string, requested: int) returns (rows: seq<Row>)
    requires Keyed(table)
    ensures Keyed(Selected(table, status, taskQueue)) && rows == Descending(Selected(table, status, taskQueue))
    ensures forall r :: r in rows <==>
      r in table && (status == "" || r.status == status) && (taskQueue == "" || r.taskQueue == taskQueue)
    ensures forall i, j :: 0 <= i < j < |rows| ==> ListedBefore(rows[i], rows[j])
  {
    hide Descending, Below, BelowCursor, Selected, Keyed, ListedBefore;
    ghost var s := Selected(table, status, taskQueue);
    rows := [];
    var cursor: Option<Row> := None;
    SelectedKeyed(table, status, taskQueue);
    while true
      invariant Keyed(s) && Keyed(BelowCursor(s, cursor)) && Descending(s) == rows + Descending(BelowCursor(s, cursor))
      decreases |Descending(s)| - |rows|
    {
      var page, next := ListWorkflowExecutions(table, status, taskQueue, requested, cursor);
      if next.None? {
        ListingMeans(table, status, taskQueue);
        return rows + page;
      }
      FullPage(s, rows, cursor, page);
      rows := rows + page;
      cursor := next;
    }
  }

  /** Later start times come first, then larger workflow ids, then larger run ids. */
  ghost predicate ListedBefore(a: Row, b: Row)
  {
    && a.startTime >= b.startTime
    && (a.startTime == b.startTime ==> a.workflowId == b.workflowId || Smaller(b.workflowId, a.workflowId))
    && (a.startTime == b.startTime && a.workflowId == b.workflowId ==> Smaller(b.runId, a.runId))
  }

  /** In dictionary order: after a common beginning, `a` ends or has the smaller
      character. */
  ghost predicate Smaller(a: string, b: string)
  {
    exists k :: 0 <= k <= |a| && k < |b| && a[..k] == b[..k] && (k == |a| || a[k] < b[k])
  }

  lemma {:induction false} SmallerIff(a: string, b: string)
    ensures StringLess(a, b) <==> Smaller(a, b)
  {
    if b != "" {
      if a == "" || a[0] < b[0] {
        assert a[..0] == b[..0];
        assert Smaller(a, b);
      } else if a[0] == b[0] {
        SmallerIff(a[1..], b[1..]);
        if Smaller(a[1..], b[1..]) {
          var k :| 0 <= k <= |a[1..]| && k < |b[1..]| && a[1..][..k] == b[1..][..k] && (k == |a[1..]| || a[1..][k] < b[1..][k]);
          assert a[..k + 1] == [a[0]] + a[1..][..k] == b[..k + 1];
        }
        if Smaller(a, b) { SmallerTail(a, b); }
      } else {
        forall k | 0 < k <= |a| && k < |b| ensures a[..k] != b[..k] { assert a[..k][0] == a[0] && b[..k][0] == b[0]; }
      }
    }
  }

  lemma SmallerTail(a: string, b: string)
    requires a != "" && b != "" && a[0] == b[0] && Smaller(a, b)
    ensures Smaller(a[1..], b[1..])
  {
    var k :| 0 <= k <= |a| && k < |b| && a[..k] == b[..k] && (k == |a| || a[k] < b[k]);
    assert k > 0;
    assert a[1..][..k - 1] == a[..k][1..] == b[1..][..k - 1];
  }

  lemma ListingMeans(table: set<Row>, status: string, taskQueue: string)
    requires Keyed(Selected(table, status, taskQueue))
    ensures var rows := Descending(Selected(table, status, taskQueue));
      && (forall r :: r in rows <==>
            r in table && (status == "" || r.status == status) && (taskQueue == "" || r.taskQueue == taskQueue))
      && (forall i, j :: 0 <= i < j < |rows| ==> ListedBefore(rows[i], rows[j]))
  {
    hide Descending;
    var s := Selected(table, status, taskQueue);
    DescendingLists(s);
    var rows := Descending(s);
    forall i, j | 0 <= i < j < |rows| ensures ListedBefore(rows[i], rows[j]) {
      SmallerIff(rows[j].workflowId, rows[i].workflowId);
      SmallerIff(rows[j].runId, rows[i].runId);
    }
  }

  lemma SelectedKeyed(table: set<Row>, status: string, taskQueue: string)
    requires Keyed(table)
    ensures Keyed(Selected(table, status, taskQueue))
    ensures BelowCursor(Selected(table, status, taskQueue), None) == Selected(table, status, taskQueue)
  {
  }
}
