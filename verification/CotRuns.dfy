/**
 * Every run of the bubble's pump: what is requested is always a prefix of one script, and nothing accepted is
 * stranded.
 */
module CotRuns {
  import opened Options
  import opened CotPump

  // ---- The script ------------------------------------------------------------------------------------------

  /** The last reasoning message of the first `n` entries. */
  function LastOf(given: seq<Entry>, n: nat): nat
    requires n <= |given|
  {
    if n == 0 then 0 else LastAfter(LastOf(given, n - 1), given[n - 1], n - 1)
  }

  /** The events of the entries numbered `a` to `b - 1`. */
  function Events(given: seq<Entry>, a: nat, b: nat): seq<CotEvent>
    requires a <= b <= |given|
  {
    if b == a then [] else Events(given, a, b - 1) + EntryEvents(LastOf(given, b - 1), given[b - 1], b - 1)
  }

  /**
   * What is to be sent for these entries: prologue, every entry once and in order, and the finish after the
   * first `k`.
   */
  function Script(given: seq<Entry>, finishedAt: Option<nat>, status: Finish): seq<CotEvent>
    requires finishedAt.Some? ==> finishedAt.value <= |given|
  {
    match finishedAt
    case None => PROLOGUE + Events(given, 0, |given|)
    case Some(k) => PROLOGUE + Events(given, 0, k) + Closing(LastOf(given, k), status) + Events(given, k, |given|)
  }

  predicate FinishOk(s: Cot) {
    s.trace.finishedAt.Some? ==> s.finish.Some? && s.trace.finishedAt.value <= |s.trace.given|
  }

  function ScriptOf(s: Cot): seq<CotEvent>
    requires FinishOk(s)
  {
    Script(s.trace.given, s.trace.finishedAt, s.finish.GetOr(Finished))
  }

  lemma {:induction false} LastOfGrown(given: seq<Entry>, more: seq<Entry>, n: nat)
    requires n <= |given|
    ensures LastOf(given + more, n) == LastOf(given, n)
  {
    if n > 0 {
      LastOfGrown(given, more, n - 1);
    }
  }

  lemma {:induction false} EventsGrown(given: seq<Entry>, more: seq<Entry>, a: nat, b: nat)
    requires a <= b <= |given|
    ensures Events(given + more, a, b) == Events(given, a, b)
  {
    hide EntryEvents, LastAfter;
    if b > a {
      LastOfGrown(given, more, b - 1);
      assert (given + more)[b - 1] == given[b - 1];
      EventsGrown(given, more, a, b - 1);
    }
  }

  lemma {:induction false} EventsSplit(given: seq<Entry>, a: nat, b: nat, c: nat)
    requires a <= b <= c <= |given|
    ensures Events(given, a, c) == Events(given, a, b) + Events(given, b, c)
  {
    hide EntryEvents, LastAfter, LastOf;
    if c > b {
      EventsSplit(given, a, b, c - 1);
      var tail := EntryEvents(LastOf(given, c - 1), given[c - 1], c - 1);
      assert Events(given, a, b) + Events(given, b, c - 1) + tail ==
        Events(given, a, b) + (Events(given, b, c - 1) + tail);
    } else {
      assert Events(given, a, b) + [] == Events(given, a, b);
    }
  }

  /** The events built from a snapshot are those of the entries put on record. */
  lemma {:induction false} BuildIsEvents(given: seq<Entry>, p: seq<Entry>, n: nat)
    requires |given| <= n <= |p|
    ensures |given + p[|given|..]| == |p|
    ensures Build(p, |given|, n, LastOf(given, |given|)) ==
      (Events(given + p[|given|..], |given|, n), LastOf(given + p[|given|..], n))
  {
    var all := given + p[|given|..];
    if n == |given| {
      LastOfGrown(given, p[|given|..], n);
    } else {
      hide EntryEvents, LastAfter;
      BuildIsEvents(given, p, n - 1);
      assert all[n - 1] == p[n - 1];
    }
  }

  /** New entries extend the script at its end. */
  lemma ScriptGrows(given: seq<Entry>, more: seq<Entry>, finishedAt: Option<nat>, status: Finish)
    requires finishedAt.Some? ==> finishedAt.value <= |given|
    ensures Script(given + more, finishedAt, status) ==
      Script(given, finishedAt, status) + Events(given + more, |given|, |given + more|)
  {
    var all, n := given + more, |given|;
    hide EntryEvents;
    match finishedAt
    case None =>
      EventsSplit(all, 0, n, |all|);
      EventsGrown(given, more, 0, n);
      assert PROLOGUE + (Events(given, 0, n) + Events(all, n, |all|)) ==
        PROLOGUE + Events(given, 0, n) + Events(all, n, |all|);
    case Some(k) =>
      EventsSplit(all, k, n, |all|);
      EventsGrown(given, more, 0, k);
      EventsGrown(given, more, k, n);
      LastOfGrown(given, more, k);
      var head := PROLOGUE + Events(given, 0, k) + Closing(LastOf(given, k), status);
      assert head + (Events(given, k, n) + Events(all, n, |all|)) == head + Events(given, k, n) + Events(all, n, |all|);
  }

  /** Finishing now puts the closing events at the end of the script. */
  lemma ScriptFinishes(given: seq<Entry>, status: Finish)
    ensures Script(given, Some(|given|), status) ==
      Script(given, None, status) + Closing(LastOf(given, |given|), status)
  {
  }

  // ---- What every step keeps -------------------------------------------------------------------------------

  /** The pump at its loop head: everything on record has been requested and went through. */
  ghost predicate Ready(s: Cot) {
    && s.cotId && !s.disabled && s.trace.creates == 1 && s.trace.completes == 0
    && FinishOk(s) && s.trace.wire == ScriptOf(s)
    && s.sentCount == |s.trace.given| && s.last == LastOf(s.trace.given, |s.trace.given|)
    && (s.trace.finishedAt.Some? <==> s.settled)
  }

  /** A slice is on its way, and `left` is what the script still asks for. */
  ghost predicate Sending(s: Cot) {
    && s.stage.Appending? && s.cotId && !s.disabled && s.trace.creates == 1 && s.trace.completes == 0
    && FinishOk(s) && s.trace.wire + s.stage.left == ScriptOf(s)
    && s.last == LastOf(s.trace.given, |s.trace.given|)
    && match s.stage.next
       case Opened => s.sentCount == 0 && s.trace.given == [] && s.trace.finishedAt.None? && !s.settled
       case Batch(n) => n == |s.trace.given| && (s.trace.finishedAt.Some? <==> s.settled)
       case Ended => s.trace.finishedAt == Some(|s.trace.given|) && s.sentCount == |s.trace.given| && !s.settled
  }

  /** No bubble yet: nothing asked for, or the create call under way. */
  ghost predicate Unopened(s: Cot) {
    && !s.cotId && s.trace.wire == [] && s.trace.given == [] && s.trace.finishedAt.None? && s.trace.completes == 0
    && s.sentCount == 0 && s.last == 0 && s.finish.None? && !s.settled && !s.stage.Appending?
    && (if s.disabled then s.stage.Idle? && s.trace.creates == 1
        else if s.stage.Creating? then s.trace.creates == 1
        else s.trace.creates == 0 && s.pending.None?)
  }

  /** After a failure nothing more is requested, but for one completion call. */
  ghost predicate Dead(s: Cot) {
    && s.cotId && s.disabled && s.stage.Idle? && s.trace.creates == 1 && FinishOk(s) && s.trace.wire <= ScriptOf(s)
    && s.trace.completes <= 1 && (s.trace.completes == 1 ==> s.settled) && (s.finish.Some? ==> s.settled)
  }

  ghost predicate Resting(s: Cot) { Ready(s) && s.stage.Idle? && s.pending.None? && (s.finish.Some? ==> s.settled) }

  ghost predicate Inv(s: Cot) { Unopened(s) || Sending(s) || Dead(s) || Resting(s) }

  lemma IssueSends(s: Cot, events: seq<CotEvent>, next: Then)
    requires FinishOk(s) && s.trace.wire + events == ScriptOf(s)
    ensures var t := Issue(s, events, next);
      FinishOk(t) && t.stage.Appending? && t.trace.wire + t.stage.left == ScriptOf(t) && ScriptOf(t) == ScriptOf(s)
  {
    hide Script;
    var n := if |events| < BATCH then |events| else BATCH;
    assert s.trace.wire + events[..n] + events[n..] == s.trace.wire + events;
  }

  lemma ScriptStatus(given: seq<Entry>, a: Finish, b: Finish)
    ensures Script(given, None, a) == Script(given, None, b)
  {
  }

  lemma FinishingKeeps(s: Cot)
    requires Ready(s) && s.pending.None?
    ensures Inv(Finishing(s))
  {
    if s.finish.Some? && !s.settled {
      var t := s.(trace := s.trace.(finishedAt := Some(s.sentCount)));
      ScriptFinishes(s.trace.given, s.finish.value);
      ScriptStatus(s.trace.given, s.finish.value, s.finish.GetOr(Finished));
      hide Script, Closing;
      IssueSends(t, Closing(s.last, s.finish.value), Ended);
    }
  }

  /** Recording a longer snapshot: its new entries extend the script by exactly the events built for them. */
  lemma RecordKeeps(s: Cot, p: seq<Entry>)
    requires Ready(s) && |p| > s.sentCount
    ensures var (events, u) := Record(s, p);
      && u == s.(last := u.last, trace := s.trace.(given := u.trace.given))
      && u.trace.given == s.trace.given + p[s.sentCount..]
      && FinishOk(u) && u.trace.wire + events == ScriptOf(u)
      && |u.trace.given| == |p| && u.last == LastOf(u.trace.given, |u.trace.given|)
  {
    BuildIsEvents(s.trace.given, p, |p|);
    ScriptGrows(s.trace.given, p[s.sentCount..], s.trace.finishedAt, s.finish.GetOr(Finished));
  }

  lemma IssueIs(s: Cot, events: seq<CotEvent>, next: Then)
    ensures var t := Issue(s, events, next);
      t == s.(stage := t.stage, trace := s.trace.(wire := t.trace.wire)) && t.stage.Appending? && t.stage.next == next
  {
  }

  lemma {:induction false} HeadKeeps(s: Cot)
    requires Ready(s)
    ensures Inv(Head(s))
    decreases s.pending.Some?
  {
    hide Record, Finishing, Issue, Script;
    var t := s.(pending := None);
    if s.pending.Some? && |s.pending.value| > s.sentCount {
      var p := s.pending.value;
      RecordKeeps(t, p);
      var (events, u) := Record(t, p);
      if events != [] {
        IssueSends(u, events, Batch(|p|));
        IssueIs(u, events, Batch(|p|));
        assert Sending(Issue(u, events, Batch(|p|)));
      } else {
        assert u.trace.wire + [] == u.trace.wire;
        HeadKeeps(u.(sentCount := |p|));
      }
    } else {
      FinishingKeeps(t);
    }
  }

  lemma FailedKeeps(s: Cot)
    requires Inv(s) && !s.stage.Idle?
    ensures Inv(Failed(s))
  {
    hide Script;
    if Sending(s) {
      assert s.trace.wire <= s.trace.wire + s.stage.left;
    }
  }

  lemma CreatedKeeps(s: Cot, ok: bool)
    requires Inv(s) && s.stage.Creating?
    ensures Inv(Created(s, ok))
  {
    if ok {
      assert Events([], 0, 0) == [];
      IssueSends(s.(cotId := true), PROLOGUE, Opened);
    } else {
      FailedKeeps(s);
    }
  }

  lemma HeadIsBody(s: Cot)
    requires s.cotId && !s.disabled
    ensures Head(s) == Body(s)
  {
  }

  lemma AppendedKeeps(s: Cot, ok: bool)
    requires Inv(s) && s.stage.Appending?
    ensures Inv(Appended(s, ok))
  {
    hide Script, Head, Body, Issue, Failed;
    if !ok {
      FailedKeeps(s);
    } else if s.stage.left != [] {
      IssueSends(s, s.stage.left, s.stage.next);
      IssueIs(s, s.stage.left, s.stage.next);
    } else {
      assert s.trace.wire + [] == s.trace.wire;
      match s.stage.next
      case Opened =>
        HeadKeeps(s);
        HeadIsBody(s);
      case Batch(n) => HeadKeeps(s.(sentCount := n));
      case Ended =>
        HeadKeeps(s.(settled := true));
    }
  }

  lemma UpdateKeeps(s: Cot, entries: seq<Entry>)
    requires Inv(s)
    ensures Inv(Update(s, entries))
  {
    hide Script, Body;
    if !s.disabled && !s.settled && s.stage.Idle? && s.cotId {
      HeadKeeps(s.(pending := Some(entries)));
    }
  }

  lemma FinalizeKeeps(s: Cot, status: Finish)
    requires Inv(s)
    ensures Inv(Finalize(s, status))
  {
    if s.cotId && !s.disabled && s.finish.None? {
      ScriptStatus(s.trace.given, Finished, status);
      hide Script, Body;
      if s.stage.Idle? {
        HeadKeeps(s.(finish := Some(status)));
      }
    }
  }

  // ---- All runs ----------------------------------------------------------------------------------------------

  datatype Step =
    | Updating(entries: seq<Entry>)
    | Finalizing(status: Finish)
    | Aborting
    | CreateReturns(ok: bool)
    | AppendReturns(ok: bool)

  predicate Enabled(s: Cot, step: Step) {
    match step
    case CreateReturns(_) => s.stage.Creating?
    case AppendReturns(_) => s.stage.Appending?
    case _ => true
  }

  function Apply(s: Cot, step: Step): Cot
    requires Enabled(s, step)
  {
    match step
    case Updating(entries) => Update(s, entries)
    case Finalizing(status) => Finalize(s, status)
    case Aborting => Abort(s)
    case CreateReturns(ok) => Created(s, ok)
    case AppendReturns(ok) => Appended(s, ok)
  }

  lemma StepKeeps(s: Cot, step: Step)
    requires Inv(s) && Enabled(s, step)
    ensures Inv(Apply(s, step))
  {
    hide Inv, Finalize, Update, Created, Appended;
    match step
    case Updating(entries) => UpdateKeeps(s, entries);
    case Finalizing(status) => FinalizeKeeps(s, status);
    case Aborting => FinalizeKeeps(s, Interrupted);
    case CreateReturns(ok) => CreatedKeeps(s, ok);
    case AppendReturns(ok) => AppendedKeeps(s, ok);
  }

  ghost predicate RunsTo(s: Cot, steps: seq<Step>, t: Cot)
    decreases steps
  {
    if steps == [] then s == t else Enabled(s, steps[0]) && RunsTo(Apply(s, steps[0]), steps[1..], t)
  }

  ghost predicate Reachable(s: Cot) { exists steps :: RunsTo(FRESH, steps, s) }

  lemma {:induction false} RunKeeps(s: Cot, steps: seq<Step>, t: Cot)
    requires Inv(s) && RunsTo(s, steps, t)
    ensures Inv(t)
    decreases steps
  {
    if steps != [] {
      hide Inv, Enabled, Apply;
      StepKeeps(s, steps[0]);
      RunKeeps(Apply(s, steps[0]), steps[1..], t);
    }
  }

  lemma ReachableOk(s: Cot)
    requires Reachable(s)
    ensures Inv(s)
  {
    var steps :| RunsTo(FRESH, steps, s);
    RunKeeps(FRESH, steps, s);
  }
}
