/** Ordered lists read through a cursor. */
module Cursors {

  /** Positions increase along the list. */
  predicate Ascending<T>(rows: seq<T>, at: T -> int) {
    forall i, j :: 0 <= i < j < |rows| ==> at(rows[i]) < at(rows[j])
  }

  /** How many entries a cursor has passed. */
  function Passed<T>(rows: seq<T>, at: T -> int, cursor: int): (n: nat)
    ensures n <= |rows|
  {
    if rows == [] then 0
    else Passed(rows[..|rows| - 1], at, cursor) + if at(rows[|rows| - 1]) <= cursor then 1 else 0
  }

  /** A cursor splits an ordered list. */
  lemma {:induction false} PassedSplits<T>(rows: seq<T>, at: T -> int, cursor: int)
    requires Ascending(rows, at)
    ensures forall i :: 0 <= i < |rows| ==> (i < Passed(rows, at, cursor) <==> at(rows[i]) <= cursor)
  {
    if rows != [] {
      var rest := rows[..|rows| - 1];
      PassedSplits(rest, at, cursor);
      assert forall i :: 0 <= i < |rest| ==> rest[i] == rows[i];
    }
  }

  lemma PassedIs<T>(rows: seq<T>, at: T -> int, cursor: int, n: nat)
    requires Ascending(rows, at) && n <= |rows|
    requires forall i :: 0 <= i < n ==> at(rows[i]) <= cursor
    requires n < |rows| ==> cursor < at(rows[n])
    ensures Passed(rows, at, cursor) == n
  {
    hide Passed;
    PassedSplits(rows, at, cursor);
    var m := Passed(rows, at, cursor);
    assert m < |rows| ==> cursor < at(rows[m]);
    assert n < |rows| ==> (n < m <==> at(rows[n]) <= cursor);
  }

  /** The entries above a cursor. */
  function After<T>(rows: seq<T>, at: T -> int, cursor: int): (r: seq<T>) {
    rows[Passed(rows, at, cursor)..]
  }

  /** The cursor after taking some entries. */
  function CursorAfter<T>(at: T -> int, cursor: int, taken: seq<T>): (r: int) {
    if taken == [] then cursor else at(taken[|taken| - 1])
  }

  /** Moving the cursor along leaves the rest. */
  lemma AfterPrefix<T>(rows: seq<T>, at: T -> int, cursor: int, taken: seq<T>)
    requires Ascending(rows, at) && taken <= After(rows, at, cursor)
    ensures After(rows, at, CursorAfter(at, cursor, taken)) == After(rows, at, cursor)[|taken|..]
    ensures CursorAfter(at, cursor, taken) >= cursor
  {
    hide Passed;
    PassedSplits(rows, at, cursor);
    if taken != [] {
      var n := Passed(rows, at, cursor) + |taken|;
      assert taken[|taken| - 1] == rows[n - 1];
      PassedIs(rows, at, at(rows[n - 1]), n);
    }
  }

  lemma FirstAfter<T>(rows: seq<T>, at: T -> int, cursor: int)
    requires Ascending(rows, at) && After(rows, at, cursor) != []
    ensures at(After(rows, at, cursor)[0]) > cursor
  {
    hide Passed;
    PassedSplits(rows, at, cursor);
    assert After(rows, at, cursor)[0] == rows[Passed(rows, at, cursor)];
  }

  /** What was ahead of a cursor stays ahead of it when the list grows. */
  lemma AfterGrows<T>(rows: seq<T>, longer: seq<T>, at: T -> int, cursor: int, taken: seq<T>)
    requires Ascending(longer, at) && rows <= longer && taken <= After(rows, at, cursor)
    ensures taken <= After(longer, at, cursor)
  {
    hide Passed;
    PassedSplits(rows, at, cursor);
    PassedSplits(longer, at, cursor);
    if taken != [] {
      var n := Passed(rows, at, cursor);
      assert cursor < at(rows[n]);
      PassedIs(longer, at, cursor, n);
    }
  }
}
