/** What the tracker holds does not depend on how the rows were cut into polls, and the tool timeline adds up. */
module StreamRuns {
  import opened StreamTracker

  // ---- Polls -------------------------------------------------------------------------------------------

  predicate Next(rows: seq<Row>, i: nat, above: nat)
    requires i < |rows|
  {
    rows[i].rowId > if i == 0 then above else rows[i - 1].rowId
  }

  ghost predicate Ascending(rows: seq<Row>, above: nat) { forall i :: 0 <= i < |rows| ==> Next(rows, i, above) }

  lemma AscendingParts(rows: seq<Row>, above: nat, n: nat)
    requires Ascending(rows, above) && n <= |rows|
    ensures Ascending(rows[..n], above)
    ensures rows != [] ==> rows[0].rowId > above && Ascending(rows[1..], rows[0].rowId)
  {
    forall i | 0 <= i < n ensures Next(rows[..n], i, above) {
      assert Next(rows, i, above);
    }
    if rows != [] {
      assert Next(rows, 0, above);
      forall i | 0 <= i < |rows| - 1 ensures Next(rows[1..], i, rows[0].rowId) {
        assert Next(rows, i + 1, above);
      }
    }
  }

  /** The rows above a cursor of a table in ascending order. */
  function Above(rows: seq<Row>, cursor: nat): (r: seq<Row>) {
    if rows == [] then [] else if rows[0].rowId > cursor then rows else Above(rows[1..], cursor)
  }

  /**
   * A poll while the table holds its first `visible` rows, which returns at most `limit` of those above
   * the cursor; nothing is polled after the terminal event.
   */
  function Poll(s: Tracker, table: seq<Row>, visible: nat, limit: nat): Tracker {
    if s.terminal.Some? then s
    else
      var rows := Above(if visible < |table| then table[..visible] else table, s.cursor);
      Consume(s, if limit < |rows| then rows[..limit] else rows)
  }

  datatype PollOf = PollOf(visible: nat, limit: nat)

  function Polls(s: Tracker, table: seq<Row>, schedule: seq<PollOf>): Tracker {
    if schedule == [] then s
    else
      var t := Polls(s, table, schedule[..|schedule| - 1]);
      Poll(t, table, schedule[|schedule| - 1].visible, schedule[|schedule| - 1].limit)
  }

  /** How many rows one pass takes. */
  function Taken(s: Tracker, rows: seq<Row>): (n: nat)
    ensures n <= |rows|
    decreases rows
  {
    if rows == [] || s.terminal.Some? || Foreign(s, rows[0].event) then 0 else 1 + Taken(Take(s, rows[0]), rows[1..])
  }

  lemma TakeCursor(s: Tracker, row: Row)
    ensures Take(s, row).cursor == if row.rowId > s.cursor then row.rowId else s.cursor
    ensures Take(s, row).turnId == s.turnId
  {
    hide OnTool, OnText, AtEnd;
  }

  /** A pass that takes every row of `a` goes on with `b`. */
  lemma {:induction false} ConsumeConcat(s: Tracker, a: seq<Row>, b: seq<Row>)
    requires Taken(s, a) == |a|
    ensures Consume(s, a + b) == Consume(Consume(s, a), b) && Taken(s, a + b) == |a| + Taken(Consume(s, a), b)
    decreases a
  {
    hide Take, Foreign;
    if a == [] {
      assert a + b == b;
    } else {
      assert (a + b)[1..] == a[1..] + b;
      ConsumeConcat(Take(s, a[0]), a[1..], b);
    }
  }

  /** Rows not taken change nothing: a pass is the same as one over just the rows it takes. */
  lemma {:induction false} ConsumeTaken(s: Tracker, rows: seq<Row>)
    ensures var n := Taken(s, rows); Taken(s, rows[..n]) == n && Consume(s, rows[..n]) == Consume(s, rows)
    decreases rows
  {
    hide Take, Foreign;
    var n := Taken(s, rows);
    if n > 0 {
      ConsumeTaken(Take(s, rows[0]), rows[1..]);
      assert rows[..n][1..] == rows[1..][..n - 1];
    }
  }

  /** A pass leaves the cursor at the last row it takes. */
  lemma {:induction false} CursorAt(s: Tracker, rows: seq<Row>)
    requires Ascending(rows, s.cursor)
    ensures Consume(s, rows).cursor == if Taken(s, rows) == 0 then s.cursor else rows[Taken(s, rows) - 1].rowId
    decreases rows
  {
    hide Take, Foreign;
    if rows != [] {
      TakeCursor(s, rows[0]);
      AscendingParts(rows, s.cursor, 0);
      CursorAt(Take(s, rows[0]), rows[1..]);
    }
  }

  lemma {:induction false} Later(rows: seq<Row>, above: nat, n: nat)
    requires Ascending(rows, above) && 0 < n < |rows|
    ensures rows[0].rowId < rows[n].rowId
  {
    assert Next(rows, n, above);
    if n > 1 {
      Later(rows, above, n - 1);
    }
  }

  /** The rows above the `n`-th row's id are the rows after it. */
  lemma {:induction false} AboveIs(rows: seq<Row>, above: nat, n: nat)
    requires Ascending(rows, above) && n <= |rows|
    ensures Above(rows, if n == 0 then above else rows[n - 1].rowId) == rows[n..]
    decreases rows
  {
    AscendingParts(rows, above, 0);
    if n > 0 {
      AboveIs(rows[1..], rows[0].rowId, n - 1);
      if n > 1 {
        Later(rows, above, n - 1);
      }
    }
  }

  /** `s` is what one pass over the first `k` rows makes of `start`, taking them all. */
  ghost predicate UpTo(start: Tracker, table: seq<Row>, k: nat, s: Tracker) {
    k <= |table| && Taken(start, table[..k]) == k && s == Consume(start, table[..k])
  }

  lemma Advance(start: Tracker, table: seq<Row>, k: nat, s: Tracker, rows: seq<Row>) returns (k': nat)
    requires UpTo(start, table, k, s) && k + |rows| <= |table| && rows == table[k..k + |rows|]
    ensures k' == k + Taken(s, rows) && UpTo(start, table, k', Consume(s, rows))
    ensures k + |rows| == |table| ==> Consume(s, rows) == Consume(start, table)
  {
    hide Take, Foreign, Consume, Taken;
    var n := Taken(s, rows);
    ConsumeTaken(s, rows);
    k' := k + n;
    assert table[..k'] == table[..k] + rows[..n];
    ConsumeConcat(start, table[..k], rows[..n]);
    if k + |rows| == |table| {
      assert table == table[..k] + rows;
      ConsumeConcat(start, table[..k], rows);
    }
  }

  lemma {:induction false} BelowAll(all: seq<Row>, table: seq<Row>, above: nat, k: nat)
    requires Ascending(table, above) && |all| < k <= |table| && all == table[..|all|]
    ensures Above(all, table[k - 1].rowId) == []
    decreases all
  {
    if all != [] {
      AscendingParts(table, above, 0);
      Later(table, above, k - 1);
      BelowAll(all[1..], table[1..], table[0].rowId, k - 1);
    }
  }

  /** A table shown only in part below the cursor has nothing above it. */
  lemma NoneAbove(all: seq<Row>, table: seq<Row>, above: nat, k: nat)
    requires Ascending(table, above) && |all| < k <= |table| && all == table[..|all|]
    ensures Above(all, table[k - 1].rowId) == []
  {
    BelowAll(all, table, above, k);
  }

  /** What a poll gets to see: some of the rows not taken yet, from the first of them on. */
  lemma Seen(start: Tracker, table: seq<Row>, k: nat, s: Tracker, visible: nat) returns (rows: seq<Row>)
    requires Ascending(table, start.cursor) && UpTo(start, table, k, s)
    ensures rows == Above(if visible < |table| then table[..visible] else table, s.cursor)
    ensures k + |rows| <= |table| && rows == table[k..k + |rows|]
    ensures visible >= |table| ==> rows == table[k..]
  {
    AscendingParts(table, start.cursor, k);
    CursorAt(start, table[..k]);
    var all := if visible < |table| then table[..visible] else table;
    AscendingParts(table, start.cursor, |all|);
    hide Ascending, Above, Consume, Taken;
    if k <= |all| {
      rows := all[k..];
      AboveIs(all, start.cursor, k);
      assert k > 0 ==> all[k - 1] == table[k - 1] == table[..k][k - 1];
    } else {
      rows := [];
      NoneAbove(all, table, start.cursor, k);
    }
  }

  /** One poll takes the next rows it sees, and no others. */
  lemma PollTakes(start: Tracker, table: seq<Row>, k: nat, s: Tracker, visible: nat, limit: nat) returns (k': nat)
    requires Ascending(table, start.cursor) && UpTo(start, table, k, s)
    ensures k' >= k && UpTo(start, table, k', Poll(s, table, visible, limit))
    ensures visible >= |table| && limit >= |table| ==> Poll(s, table, visible, limit) == Consume(start, table)
  {
    if s.terminal.Some? {
      k' := Advance(start, table, k, s, table[k..]);
      k' := k;
    } else {
      var rows := Seen(start, table, k, s, visible);
      hide Above, Ascending, Consume, UpTo;
      k' := Advance(start, table, k, s, if limit < |rows| then rows[..limit] else rows);
    }
  }

  /** Any schedule of polls has taken some first rows of the table, each exactly once and in order. */
  lemma {:induction false} PollsTake(start: Tracker, table: seq<Row>, schedule: seq<PollOf>) returns (k: nat)
    requires Ascending(table, start.cursor)
    ensures UpTo(start, table, k, Polls(start, table, schedule))
  {
    if schedule == [] {
      k := 0;
      assert table[..0] == [];
    } else {
      var n := |schedule| - 1;
      k := PollsTake(start, table, schedule[..n]);
      k := PollTakes(start, table, k, Polls(start, table, schedule[..n]), schedule[n].visible, schedule[n].limit);
    }
  }

  /**
   * However the rows arrive and are polled for, once a poll sees the whole table the tracker is what one
   * pass over all rows makes of it: text, thinking, timeline, cursor and end.
   */
  lemma ScheduleIndependence(start: Tracker, table: seq<Row>, schedule: seq<PollOf>, last: PollOf)
    requires Ascending(table, start.cursor) && last.visible >= |table| && last.limit >= |table|
    ensures Polls(start, table, schedule + [last]) == Consume(start, table)
  {
    var k := PollsTake(start, table, schedule);
    var k' := PollTakes(start, table, k, Polls(start, table, schedule), last.visible, last.limit);
    assert (schedule + [last])[..|schedule|] == schedule;
  }

  /** Behind another turn's running event nothing is ever taken: whatever follows it, nothing changes any more. */
  lemma ForeignAbsorbs(start: Tracker, table: seq<Row>, k: nat, s: Tracker, visible: nat, limit: nat)
    requires Ascending(table, start.cursor) && UpTo(start, table, k, s)
    requires k < |table| && Foreign(s, table[k].event)
    ensures Poll(s, table, visible, limit) == s
  {
    hide UpTo, Ascending, Above, Foreign;
    var rows := Seen(start, table, k, s, visible);
  }

  lemma {:induction false} Between(rows: seq<Row>, above: nat, i: nat, j: nat)
    requires Ascending(rows, above) && i <= j < |rows|
    ensures above < rows[i].rowId <= rows[j].rowId && (i < j ==> rows[i].rowId < rows[j].rowId)
  {
    assert Next(rows, j, above);
    if i < j {
      Between(rows, above, i, j - 1);
    } else if i > 0 {
      Between(rows, above, i - 1, i - 1);
    }
  }

  /** Taking a row moves the cursor. */
  lemma Unmoved(start: Tracker, table: seq<Row>, k: nat, s: Tracker, rows: seq<Row>)
    requires Ascending(table, start.cursor) && UpTo(start, table, k, s) && rows != []
    requires k + |rows| <= |table| && rows == table[k..k + |rows|] && Consume(s, rows) == s && s.terminal.None?
    ensures Foreign(s, table[k].event)
  {
    AscendingParts(table, start.cursor, k);
    CursorAt(start, table[..k]);
    var k' := Advance(start, table, k, s, rows);
    if Taken(s, rows) > 0 {
      AscendingParts(table, start.cursor, k');
      CursorAt(start, table[..k']);
      if k > 0 {
        Between(table, start.cursor, k - 1, k' - 1);
      } else {
        Between(table, start.cursor, 0, k' - 1);
      }
    }
  }

  /**
   * When a poll of at least one row changes nothing although the whole table is there, everything that
   * one pass would take has been taken.
   */
  lemma QuietMeansDone(start: Tracker, table: seq<Row>, schedule: seq<PollOf>, limit: nat)
    requires Ascending(table, start.cursor) && limit > 0
    requires Poll(Polls(start, table, schedule), table, |table|, limit) == Polls(start, table, schedule)
    ensures Polls(start, table, schedule) == Consume(start, table)
  {
    var s := Polls(start, table, schedule);
    var k := PollsTake(start, table, schedule);
    var rows := Seen(start, table, k, s, |table|);
    if s.terminal.None? && rows != [] {
      Unmoved(start, table, k, s, if limit < |rows| then rows[..limit] else rows);
    }
    var k' := Advance(start, table, k, s, rows);
  }
}
