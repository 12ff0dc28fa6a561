/**
 Lists read page by page: following the cursors gives every record once and
 in order, and the live tail of a growing log sends every event once.
*/
module Paging {
  import opened Domain
  import opened Cursors

  // ----- pages -----

  /** Limits that make no sense mean a hundred. */
  function Limit(limit: int): (r: nat) {
    if limit <= 0 || limit > 1000 then 100 else limit
  }

  datatype Page<+T> = Page(items: seq<T>, next: int)

  /** The first entries above a cursor, and the cursor for the next page; zero after an empty page. */
  function PageOf<T>(rows: seq<T>, at: T -> int, cursor: int, limit: int): (r: Page<T>) {
    var rest := After(rows, at, cursor);
    var items := rest[..if |rest| <= Limit(limit) then |rest| else Limit(limit)];
    Page(items, if items == [] then 0 else at(items[|items| - 1]))
  }

  /** How much a page holds: at most what was asked for, up to a thousand, and a hundred for any other limit. */
  lemma PageHolds<T>(rows: seq<T>, at: T -> int, cursor: int, limit: int)
    ensures var most := if 1 <= limit <= 1000 then limit else 100;
            var rest := After(rows, at, cursor);
            |PageOf(rows, at, cursor, limit).items| == if |rest| <= most then |rest| else most
  {
    hide After;
  }

  /** A page, recognised by its items. */
  lemma PageIs<T>(rows: seq<T>, at: T -> int, cursor: int, limit: int, out: seq<T>)
    requires out <= After(rows, at, cursor)
    requires |out| == if |After(rows, at, cursor)| <= Limit(limit) then |After(rows, at, cursor)| else Limit(limit)
    ensures PageOf(rows, at, cursor, limit) == Page(out, if out == [] then 0 else at(out[|out| - 1]))
  {
    hide After;
    assert out == After(rows, at, cursor)[..|out|];
  }

  lemma PageMoves<T>(rows: seq<T>, at: T -> int, cursor: int, limit: int)
    requires Ascending(rows, at)
    ensures var page := PageOf(rows, at, cursor, limit);
            && page.items <= After(rows, at, cursor)
            && (page.items == [] <==> After(rows, at, cursor) == [])
            && (page.items != [] ==> page.items + After(rows, at, page.next) == After(rows, at, cursor))
  {
    hide Passed, After;
    AfterPrefix(rows, at, cursor, PageOf(rows, at, cursor, limit).items);
  }

  /**
   What a client collects that follows the cursors until a page is empty; it may change
   the limit from page to page.
  */
  function Followed<T>(rows: seq<T>, at: T -> int, cursor: int, limits: nat -> int, n: nat): (r: seq<T>)
    requires Ascending(rows, at)
    decreases |After(rows, at, cursor)|
  {
    var page := PageOf(rows, at, cursor, limits(n));
    PageMoves(rows, at, cursor, limits(n));
    if page.items == [] then [] else page.items + Followed(rows, at, page.next, limits, n + 1)
  }

  /** Every record above the start, each once and in order, whatever the limits. */
  lemma {:induction false} FollowedIsAll<T>(rows: seq<T>, at: T -> int, cursor: int, limits: nat -> int, n: nat)
    requires Ascending(rows, at)
    ensures Followed(rows, at, cursor, limits, n) == After(rows, at, cursor)
    decreases |After(rows, at, cursor)|
  {
    hide Passed, After;
    var page := PageOf(rows, at, cursor, limits(n));
    PageMoves(rows, at, cursor, limits(n));
    if page.items != [] {
      FollowedIsAll(rows, at, page.next, limits, n + 1);
    }
  }

  /** An empty page sends its reader back to the start: a poller that adopts its cursor reads everything again. */
  lemma EmptyPageStartsOver<T>(rows: seq<T>, at: T -> int, cursor: int, limit: int)
    requires Ascending(rows, at) && forall i :: 0 <= i < |rows| ==> at(rows[i]) > 0
    requires After(rows, at, cursor) == []
    ensures After(rows, at, PageOf(rows, at, cursor, limit).next) == rows
  {
    hide Passed;
    PassedIs(rows, at, 0, 0);
  }

  /** The records above a cursor are those of the list with a higher position, no more and no fewer. */
  lemma AfterIsFilter<T>(rows: seq<T>, at: T -> int, cursor: int)
    requires Ascending(rows, at)
    ensures Ascending(After(rows, at, cursor), at)
    ensures forall x :: x in After(rows, at, cursor) <==> x in rows && at(x) > cursor
  {
    hide Passed;
    PassedSplits(rows, at, cursor);
    var n := Passed(rows, at, cursor);
    forall x | x in rows && at(x) > cursor ensures x in rows[n..] {
      var i :| 0 <= i < |rows| && rows[i] == x;
      assert rows[n..][i - n] == x;
    }
  }

  // ----- sorting -----

  function Itself(n: nat): (r: int) {
    n
  }

  ghost predicate SortedList(ids: seq<nat>, elems: set<nat>) {
    Ascending(ids, Itself) && forall n :: n in ids <==> n in elems
  }

  /** There is one way to sort. */
  lemma {:induction false} SortedOnce(a: seq<nat>, b: seq<nat>, elems: set<nat>)
    requires SortedList(a, elems) && SortedList(b, elems)
    ensures a == b
    decreases |a|
  {
    if a == [] {
      SortedMembers(b, elems, 0);
    } else {
      assert a[0] in a && a[0] in b;
      assert b[0] in b && b[0] in a;
      var j :| 0 <= j < |b| && b[j] == a[0];
      var i :| 0 <= i < |a| && a[i] == b[0];
      assert a[0] == b[0];
      SortedTail(a, elems);
      SortedTail(b, elems);
      SortedOnce(a[1..], b[1..], elems - {a[0]});
      assert a == [a[0]] + a[1..] && b == [b[0]] + b[1..];
    }
  }

  lemma SortedTail(a: seq<nat>, elems: set<nat>)
    requires SortedList(a, elems) && a != []
    ensures SortedList(a[1..], elems - {a[0]})
  {
    forall n ensures n in a[1..] <==> n in elems - {a[0]} {
      if n in elems && n != a[0] {
        var i :| 0 <= i < |a| && a[i] == n;
        assert a[1..][i - 1] == n;
      }
    }
  }

  lemma InsertSorted(ids: seq<nat>, elems: set<nat>, id: nat, p: nat)
    requires SortedList(ids, elems) && id !in elems && p <= |ids|
    requires forall i :: 0 <= i < p ==> ids[i] < id
    requires p < |ids| ==> id < ids[p]
    ensures SortedList(ids[..p] + [id] + ids[p..], elems + {id})
  {
    var r := ids[..p] + [id] + ids[p..];
    assert ids == ids[..p] + ids[p..];
    assert forall i :: p <= i < |ids| ==> id < ids[i];
    forall n ensures n in r <==> n in elems + {id} {
      assert n in r <==> n in ids[..p] || n == id || n in ids[p..];
      assert n in ids <==> n in ids[..p] || n in ids[p..];
    }
  }

  method Sort(elems: set<nat>) returns (ids: seq<nat>)
    ensures SortedList(ids, elems)
  {
    hide SortedList;
    ids := [];
    var todo := elems;
    ghost var done: set<nat> := {};
    NothingSorted();
    while todo != {}
      invariant done !! todo && done + todo == elems && SortedList(ids, done)
      decreases todo
    {
      var id :| id in todo;
      var p := 0;
      while p < |ids| && ids[p] < id
        invariant p <= |ids| && forall i :: 0 <= i < p ==> ids[i] < id
      {
        p := p + 1;
      }
      assert p < |ids| ==> id < ids[p] by { SortedMembers(ids, done, p); }
      InsertSorted(ids, done, id, p);
      ids, todo, done := ids[..p] + [id] + ids[p..], todo - {id}, done + {id};
    }
    assert done == elems;
  }

  lemma NothingSorted()
    ensures SortedList([], {})
  {
  }

  lemma SortedMembers(ids: seq<nat>, elems: set<nat>, p: nat)
    requires SortedList(ids, elems)
    ensures p < |ids| ==> ids[p] in elems
  {
  }

  // ----- the live tail of a log -----

  function EventNumber(e: InvoiceEvent): (r: int) {
    e.id
  }

  datatype Tail = Tail(cursor: int, sent: seq<InvoiceEvent>)

  /** One tick of a stream: the next events of the log, if there are any. */
  function Poll(t: Tail, log: seq<InvoiceEvent>): (r: Tail) {
    var page := PageOf(log, EventNumber, t.cursor, 100);
    if page.items == [] then t else Tail(page.next, t.sent + page.items)
  }

  function PollAll(cursor: int, polls: seq<seq<InvoiceEvent>>): (r: Tail) {
    if polls == [] then Tail(cursor, []) else Poll(PollAll(cursor, polls[..|polls| - 1]), polls[|polls| - 1])
  }

  /** Successive readings of a log that only grows. */
  predicate Growing(polls: seq<seq<InvoiceEvent>>) {
    && (forall n :: 0 <= n < |polls| ==> Ascending(polls[n], EventNumber))
    && (forall m, n :: 0 <= m < n < |polls| ==> polls[m] <= polls[n])
  }

  /** Sent so far, and still to come, are together what the log has after the first cursor. */
  ghost predicate Sends(t: Tail, log: seq<InvoiceEvent>, cursor: int) {
    t.cursor >= cursor && t.sent + After(log, EventNumber, t.cursor) == After(log, EventNumber, cursor)
  }

  lemma PollSends(t: Tail, log: seq<InvoiceEvent>, cursor: int)
    requires Ascending(log, EventNumber) && Sends(t, log, cursor)
    ensures Sends(Poll(t, log), log, cursor)
    ensures After(log, EventNumber, t.cursor) != [] ==> |Poll(t, log).sent| > |t.sent|
  {
    hide Passed, After;
    PageMoves(log, EventNumber, t.cursor, 100);
    var page := PageOf(log, EventNumber, t.cursor, 100);
    if page.items != [] {
      AfterPrefix(log, EventNumber, t.cursor, page.items);
      assert t.sent + page.items + After(log, EventNumber, page.next)
          == t.sent + (page.items + After(log, EventNumber, page.next));
    }
  }

  lemma GrownSends(t: Tail, log: seq<InvoiceEvent>, longer: seq<InvoiceEvent>, cursor: int)
    requires Ascending(log, EventNumber) && Ascending(longer, EventNumber) && log <= longer && Sends(t, log, cursor)
    requires t.cursor == CursorAfter(EventNumber, cursor, t.sent)
    ensures Sends(t, longer, cursor)
  {
    hide Passed, After;
    AfterGrows(log, longer, EventNumber, cursor, t.sent);
    AfterPrefix(longer, EventNumber, cursor, t.sent);
  }

  lemma {:induction false} PollCursor(cursor: int, polls: seq<seq<InvoiceEvent>>)
    ensures var t := PollAll(cursor, polls); t.cursor == CursorAfter(EventNumber, cursor, t.sent)
  {
    hide After;
    if polls != [] {
      PollCursor(cursor, polls[..|polls| - 1]);
    }
  }

  /**
   A stream sends the events after its cursor in order and each once while the log grows,
   and moves on at every tick that finds some.
  */
  lemma {:induction false} TailSendsOnce(cursor: int, polls: seq<seq<InvoiceEvent>>)
    requires Growing(polls) && polls != []
    ensures Sends(PollAll(cursor, polls), polls[|polls| - 1], cursor)
    ensures var before := PollAll(cursor, polls[..|polls| - 1]);
            After(polls[|polls| - 1], EventNumber, before.cursor) != [] ==>
                |PollAll(cursor, polls).sent| > |before.sent|
  {
    hide After, Poll, Ascending, Sends;
    var rest, log := polls[..|polls| - 1], polls[|polls| - 1];
    var t := PollAll(cursor, rest);
    PollCursor(cursor, rest);
    if rest == [] {
      StartSends(log, cursor);
    } else {
      assert Growing(rest);
      TailSendsOnce(cursor, rest);
      assert rest[|rest| - 1] == polls[|polls| - 2];
      GrownSends(t, rest[|rest| - 1], log, cursor);
    }
    PollSends(t, log, cursor);
  }

  lemma StartSends(log: seq<InvoiceEvent>, cursor: int)
    ensures Sends(Tail(cursor, []), log, cursor)
  {
  }

  method Stream(start: int, polls: seq<seq<InvoiceEvent>>) returns (sent: seq<InvoiceEvent>)
    ensures sent == PollAll(start, polls).sent
  {
    hide PageOf;
    var afterId := start;
    sent := [];
    for n := 0 to |polls|
      invariant Tail(afterId, sent) == PollAll(start, polls[..n])
    {
      assert polls[..n + 1][..n] == polls[..n];
      var page := PageOf(polls[n], EventNumber, afterId, 100);
      if page.items != [] {
        for i := 0 to |page.items|
          invariant sent == PollAll(start, polls[..n]).sent + page.items[..i]
        {
          sent := sent + [page.items[i]];
        }
        afterId := page.next;
      }
    }
    assert polls[..|polls|] == polls;
  }
}
