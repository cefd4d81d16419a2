/** Which rows belong to a turn and how it ended, read off the rows alone. */
module StreamWindow {
  import opened Options
  import opened StreamTracker
  import opened StreamRuns

  /** The turn named by the first running event among the first `n` rows; None when there is none. */
  function FirstRunning(rows: seq<Row>, n: nat): Option<string>
    requires n <= |rows|
  {
    if n == 0 then None
    else if FirstRunning(rows, n - 1).Some? then FirstRunning(rows, n - 1)
    else if rows[n - 1].event.TurnRunning? then Some(rows[n - 1].event.turn) else None
  }

  /** Row `i` opens another turn: a turn is running already, and this is not known to be the same one. */
  predicate OpensAnother(turnId: Option<string>, rows: seq<Row>, i: nat)
    requires i < |rows|
  {
    var (first, e) := (FirstRunning(rows, i), rows[i].event);
    var own := if turnId.Some? then turnId else first;
    e.TurnRunning? && first.Some? && (e.turn == "" || own == Some("") || own != Some(e.turn))
  }

  /** How a turn that ended so is reported. */
  function Outcome(how: How): End {
    if how == Completed then EndCompleted
    else if how == Failed then EndFailed
    else EndStopped
  }

  /** What the tracker knows of the turns after the first `n` rows. */
  ghost predicate Knows(s: Tracker, turnId: Option<string>, rows: seq<Row>, n: nat)
    requires n <= |rows|
  {
    && s.turnId == turnId
    && (s.seenRunning <==> FirstRunning(rows, n).Some?)
    && s.ownTurn == FirstRunning(rows, n).GetOr("")
    && s.terminal == if n > 0 && rows[n - 1].event.TurnEnded? then Some(Outcome(rows[n - 1].event.how)) else None
  }

  lemma TakeKnows(s: Tracker, turnId: Option<string>, rows: seq<Row>, n: nat)
    requires n < |rows| && Knows(s, turnId, rows, n) && s.terminal.None?
    ensures Knows(Take(s, rows[n]), turnId, rows, n + 1)
    ensures Foreign(s, rows[n].event) <==> OpensAnother(turnId, rows, n)
  {
    hide OnTool, OnText, AtEnd;
  }

  lemma {:induction false} TakenKnows(s: Tracker, turnId: Option<string>, rows: seq<Row>, n: nat)
    requires n <= |rows| && Knows(s, turnId, rows, n)
    requires forall i :: 0 <= i < n ==> !OpensAnother(turnId, rows, i)
    requires forall i :: 0 <= i < n - 1 ==> !rows[i].event.TurnEnded?
    ensures var k := n + Taken(s, rows[n..]);
      && k <= |rows| && Knows(Consume(s, rows[n..]), turnId, rows, k)
      && (forall i :: 0 <= i < k ==> !OpensAnother(turnId, rows, i))
      && (forall i :: 0 <= i < k - 1 ==> !rows[i].event.TurnEnded?)
      && (k < |rows| ==> (k > 0 && rows[k - 1].event.TurnEnded?) || OpensAnother(turnId, rows, k))
    decreases |rows| - n
  {
    hide Take, Foreign, OpensAnother, FirstRunning;
    if n < |rows| && s.terminal.None? {
      TakeKnows(s, turnId, rows, n);
      if !Foreign(s, rows[n].event) {
        assert rows[n..][0] == rows[n] && rows[n..][1..] == rows[n + 1..];
        TakenKnows(Take(s, rows[n]), turnId, rows, n + 1);
      }
    }
  }

  /**
   * The rows of a turn go up to the first end of a turn, and stop in front of the first event that opens
   * another one; nothing else stops them. The turn is over exactly when they reach an end, and is reported as
   * that end says.
   */
  lemma WindowIs(turnId: Option<string>, cursor: nat, rows: seq<Row>)
    ensures var (s, n) := (Consume(Opened(turnId, cursor), rows), Taken(Opened(turnId, cursor), rows));
      && (forall i :: 0 <= i < n ==> !OpensAnother(turnId, rows, i))
      && (forall i :: 0 <= i < n - 1 ==> !rows[i].event.TurnEnded?)
      && (n < |rows| ==> (n > 0 && rows[n - 1].event.TurnEnded?) || OpensAnother(turnId, rows, n))
      && s.terminal == if n > 0 && rows[n - 1].event.TurnEnded? then Some(Outcome(rows[n - 1].event.how)) else None
  {
    assert rows[0..] == rows;
    TakenKnows(Opened(turnId, cursor), turnId, rows, 0);
    hide Consume, Taken, OpensAnother;
  }
}
