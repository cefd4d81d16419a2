/** Append-only event logs and bounded reads of them (the channel source's contract). */
module EventLog {
  import opened Mapper
  import opened MapperLaws
  import opened Numbers

  /** The name of a log. Two logs a session has had bear different ones. */
  type History = string

  /**
   * `After(n)`: events with seq > n, oldest first; `Before(n)`: the newest events with seq < n. At most
   * `limit` of them.
   */
  datatype Query = After(seqNo: int, limit: nat) | Before(seqNo: int, limit: nat)

  datatype Answer = Answer(events: seq<Event>, history: History, lastSeq: int, hasMore: bool)

  /** Which log a session has at some moment, and its contents. */
  datatype Snapshot = Snapshot(history: History, log: seq<Event>)

  /**
   * `a` is an answer to `q` while the session's log is `s`: a run of consecutive events next to the
   * position asked for, in ascending order, not empty when there are any; `hasMore` tells whether
   * events remain beyond it in the direction read.
   */
  ghost predicate Answers(a: Answer, q: Query, s: Snapshot) {
    && a.history == s.history
    && a.lastSeq == |s.log| - 1
    && |a.events| <= q.limit
    && match q
       case After(n, _) =>
         var lo := Max(n + 1, 0);
         && (lo < |s.log| ==> |a.events| > 0)
         && (a.events != [] ==> lo + |a.events| <= |s.log| && a.events == s.log[lo..lo + |a.events|])
         && (a.hasMore <==> lo + |a.events| < |s.log|)
       case Before(n, _) =>
         var hi := Max(Min(n, |s.log|), 0);
         && (hi > 0 ==> |a.events| > 0)
         && |a.events| <= hi && a.events == s.log[hi - |a.events|..hi]
         && (a.hasMore <==> |a.events| < hi)
  }

  /** The mapped items of the events numbered `a` to `b - 1`. */
  function ItemsIn(log: seq<Event>, a: nat, b: nat): seq<Item>
    requires a <= b <= |log|
  {
    MapEvents(log[a..b])
  }

  lemma ItemsInSplit(log: seq<Event>, a: nat, b: nat, c: nat)
    requires a <= b <= c <= |log|
    ensures ItemsIn(log, a, c) == ItemsIn(log, a, b) + ItemsIn(log, b, c)
  {
    assert log[a..c] == log[a..b] + log[b..c];
    MapEventsConcat(log[a..b], log[b..c]);
  }

  lemma ItemsInGrown(log: seq<Event>, later: seq<Event>, a: nat, b: nat)
    requires log <= later && a <= b <= |log|
    ensures ItemsIn(later, a, b) == ItemsIn(log, a, b)
  {
    assert later[a..b] == log[a..b];
  }

  /** A forward read from the event numbered `c` on. */
  lemma ForwardAnswer(a: Answer, c: nat, limit: nat, s: Snapshot)
    requires Answers(a, After(c - 1, limit), s)
    ensures a.history == s.history && a.lastSeq == |s.log| - 1 && |a.events| <= limit
    ensures c < |s.log| ==> a.events != []
    ensures a.events != [] ==> c + |a.events| <= |s.log| && a.events == s.log[c..c + |a.events|]
    ensures a.hasMore <==> c + |a.events| < |s.log|
  {
  }

  /** A backward read below the event numbered `c`. */
  lemma BackwardAnswer(a: Answer, c: nat, limit: nat, s: Snapshot)
    requires Answers(a, Before(c, limit), s)
    ensures a.history == s.history && a.lastSeq == |s.log| - 1 && |a.events| <= limit
    ensures var hi := if c < |s.log| then c else |s.log|;
      && |a.events| <= hi && a.events == s.log[hi - |a.events|..hi]
      && (hi > 0 ==> a.events != [])
      && (a.hasMore <==> |a.events| < hi)
  {
  }

  lemma SliceOfGrown(log: seq<Event>, later: seq<Event>, c: nat, d: nat)
    requires log <= later && c <= d <= |log|
    ensures later[c..d] == log[c..d]
  {
  }

  lemma SliceNumbered(log: seq<Event>, c: nat, d: nat)
    requires Numbered(log, 0) && c <= d <= |log|
    ensures Numbered(log[c..d], c)
  {
  }
}
