/** What a reader of the bubble can rely on, over every run of updates, finish requests, answers and failures. */
module CotTheorems {
  import opened Options
  import opened CotPump
  import opened CotRuns

  /**
   * One bubble at most; what is requested is the beginning of the script (prologue, then the recorded
   * entries once each and in order, the closing events at most once), all of it when the pump rests.
   */
  lemma OneScript(s: Cot)
    requires Reachable(s)
    ensures s.trace.creates <= 1 && s.trace.completes <= 1
    ensures FinishOk(s) && s.trace.wire <= ScriptOf(s)
    ensures s.stage.Idle? && s.cotId && !s.disabled ==> s.trace.wire == ScriptOf(s)
  {
    ReachableOk(s);
    hide Script;
    if Sending(s) {
      assert s.trace.wire <= s.trace.wire + s.stage.left;
    }
  }

  lemma {:induction false} EventsDoNotFinish(given: seq<Entry>, a: nat, b: nat)
    requires a <= b <= |given|
    ensures forall i :: 0 <= i < |Events(given, a, b)| ==> !Events(given, a, b)[i].RunFinished?
  {
    if b > a {
      EventsDoNotFinish(given, a, b - 1);
      hide LastOf;
    }
  }

  lemma ScriptFinishesOnce(given: seq<Entry>, finishedAt: Option<nat>, status: Finish, p: nat, q: nat)
    requires finishedAt.Some? ==> finishedAt.value <= |given|
    requires p < q < |Script(given, finishedAt, status)|
    ensures !(Script(given, finishedAt, status)[p].RunFinished? && Script(given, finishedAt, status)[q].RunFinished?)
  {
    hide Events, LastOf;
    match finishedAt
    case None => EventsDoNotFinish(given, 0, |given|);
    case Some(k) =>
      EventsDoNotFinish(given, 0, k);
      EventsDoNotFinish(given, k, |given|);
  }

  /** RUN_FINISHED is requested at most once. */
  lemma FinishedOnce(s: Cot, p: nat, q: nat)
    requires Reachable(s) && p < q < |s.trace.wire|
    ensures !(s.trace.wire[p].RunFinished? && s.trace.wire[q].RunFinished?)
  {
    OneScript(s);
    hide Script;
    ScriptFinishesOnce(s.trace.given, s.trace.finishedAt, s.finish.GetOr(Finished), p, q);
    assert s.trace.wire[p] == ScriptOf(s)[p] && s.trace.wire[q] == ScriptOf(s)[q];
  }

  /** A resting pump has taken every update, and has finished when it was asked to. */
  lemma NothingStranded(s: Cot)
    requires Reachable(s) && s.stage.Idle? && !s.disabled
    ensures s.pending.None? && (s.finish.Some? ==> s.settled)
  {
    ReachableOk(s);
    hide Script;
  }

  /** Once finished and at rest, nothing ever happens again. */
  lemma SettledIsFinal(s: Cot, step: Step)
    requires Reachable(s) && s.settled && s.stage.Idle? && Enabled(s, step)
    ensures Apply(s, step) == s
  {
    ReachableOk(s);
    hide Script;
  }

  // ---- Snapshots that extend one another -----------------------------------------------------------------

  /** The latest snapshot accepted; an update is accepted until the run is disabled or settled. */
  function Accepted(s: Cot, step: Step, latest: seq<Entry>): seq<Entry> {
    if step.Updating? && !s.disabled && !s.settled then step.entries else latest
  }

  ghost predicate ExtendsTo(s: Cot, latest: seq<Entry>, steps: seq<Step>, t: Cot, last: seq<Entry>)
    decreases steps
  {
    if steps == [] then s == t && latest == last
    else
      && Enabled(s, steps[0]) && latest <= Accepted(s, steps[0], latest)
      && ExtendsTo(Apply(s, steps[0]), Accepted(s, steps[0], latest), steps[1..], t, last)
  }

  /** A state reached by updates that extend one another, and the latest accepted snapshot. */
  ghost predicate ReachedBy(s: Cot, latest: seq<Entry>) { exists steps :: ExtendsTo(FRESH, [], steps, s, latest) }

  /** What is on record is the beginning of the latest snapshot; all of it unless that snapshot is still pending. */
  ghost predicate Follows(s: Cot, latest: seq<Entry>) {
    !s.disabled ==>
      if s.pending.Some? then s.pending.value == latest && s.trace.given <= latest else s.trace.given == latest
  }

  lemma {:induction false} HeadTakes(s: Cot, latest: seq<Entry>)
    requires Ready(s) && Follows(s, latest)
    ensures var t := Head(s);
      t.pending.None? && t.trace.given == latest && t.disabled == s.disabled
      && (t.trace.finishedAt != s.trace.finishedAt ==> t.trace.finishedAt == Some(|latest|))
    decreases s.pending.Some?
  {
    hide Script, Build;
    if s.pending.Some? && |s.pending.value| > s.sentCount {
      var p, given := s.pending.value, s.trace.given;
      assert given + p[|given|..] == p;
      var (events, u) := Record(s.(pending := None), p);
      if events == [] {
        RecordKeeps(s.(pending := None), p);
        assert u.trace.wire + [] == u.trace.wire;
        HeadTakes(u.(sentCount := |p|), latest);
      }
    }
  }

  lemma AppendFollows(s: Cot, latest: seq<Entry>)
    requires Inv(s) && Follows(s, latest) && s.stage.Appending?
    ensures Follows(Appended(s, true), latest)
    ensures s.trace.finishedAt.None? && Appended(s, true).trace.finishedAt.Some? ==>
      && Appended(s, true).trace.finishedAt == Some(|latest|)
      && !Appended(s, true).disabled && Appended(s, true).pending.None?
  {
    hide Script, Head, Body;
    if s.stage.left == [] {
      assert s.trace.wire + [] == s.trace.wire;
      match s.stage.next
      case Opened =>
        HeadIsBody(s);
        HeadTakes(s, latest);
      case Batch(n) => HeadTakes(s.(sentCount := n), latest);
      case Ended =>
        HeadTakes(s.(settled := true), latest);
    }
  }

  lemma HeadCreates(s: Cot)
    requires !s.cotId && !s.disabled
    ensures Head(s) == s.(stage := Creating, trace := s.trace.(creates := s.trace.creates + 1))
  {
  }

  lemma FinalizeFollows(s: Cot, latest: seq<Entry>, status: Finish)
    requires Inv(s) && Follows(s, latest)
    ensures Follows(Finalize(s, status), latest)
    ensures s.trace.finishedAt.None? && Finalize(s, status).trace.finishedAt.Some? ==>
      && Finalize(s, status).trace.finishedAt == Some(|latest|)
      && !Finalize(s, status).disabled && Finalize(s, status).pending.None?
  {
    hide Script, Head, Body;
    if s.cotId && !s.disabled && s.finish.None? && s.stage.Idle? {
      ScriptStatus(s.trace.given, Finished, status);
      HeadTakes(s.(finish := Some(status)), latest);
    }
  }

  lemma StepFollows(s: Cot, latest: seq<Entry>, step: Step)
    requires Inv(s) && Follows(s, latest) && Enabled(s, step) && latest <= Accepted(s, step, latest)
    ensures Follows(Apply(s, step), Accepted(s, step, latest))
    ensures s.trace.finishedAt.None? && Apply(s, step).trace.finishedAt.Some? ==>
      Apply(s, step).trace.finishedAt == Some(|Accepted(s, step, latest)|)
      && !Apply(s, step).disabled && Apply(s, step).pending.None?
  {
    hide Script, Head, Body;
    match step
    case Updating(entries) =>
      if !s.disabled && !s.settled && s.stage.Idle? && s.cotId {
        HeadTakes(s.(pending := Some(entries)), entries);
      } else if !s.disabled && !s.settled && s.stage.Idle? {
        HeadCreates(s.(pending := Some(entries)));
      }
    case AppendReturns(true) => AppendFollows(s, latest);
    case AppendReturns(false) =>
    case CreateReturns(ok) =>
    case Finalizing(status) => FinalizeFollows(s, latest, status);
    case Aborting => FinalizeFollows(s, latest, Interrupted);
  }

  lemma {:induction false} RunFollows(s: Cot, latest: seq<Entry>, steps: seq<Step>, t: Cot, last: seq<Entry>)
    requires Inv(s) && Follows(s, latest) && ExtendsTo(s, latest, steps, t, last)
    ensures Inv(t) && Follows(t, last)
    decreases steps
  {
    if steps != [] {
      hide Inv, Follows, Enabled, Apply, Accepted;
      StepKeeps(s, steps[0]);
      StepFollows(s, latest, steps[0]);
      RunFollows(Apply(s, steps[0]), Accepted(s, steps[0], latest), steps[1..], t, last);
    }
  }

  lemma ReachedFollows(s: Cot, latest: seq<Entry>)
    requires ReachedBy(s, latest)
    ensures Inv(s) && Follows(s, latest)
  {
    var steps :| ExtendsTo(FRESH, [], steps, s, latest);
    RunFollows(FRESH, [], steps, s, latest);
  }

  /** Without failures, a resting bubble shows every entry of the latest accepted snapshot, once each and in order. */
  lemma EverythingAcceptedIsSent(s: Cot, latest: seq<Entry>)
    requires ReachedBy(s, latest) && s.stage.Idle? && s.cotId && !s.disabled
    ensures FinishOk(s) && s.trace.given == latest
    ensures s.trace.wire == Script(latest, s.trace.finishedAt, s.finish.GetOr(Finished))
  {
    ReachedFollows(s, latest);
    hide Script;
  }

  /** When the finish goes out, every entry accepted until then is in front of it. */
  lemma FinishFollowsEverything(s: Cot, latest: seq<Entry>, step: Step)
    requires ReachedBy(s, latest) && Enabled(s, step) && latest <= Accepted(s, step, latest)
    requires s.trace.finishedAt.None? && Apply(s, step).trace.finishedAt.Some?
    ensures Apply(s, step).trace.finishedAt == Some(|Accepted(s, step, latest)|)
    ensures Apply(s, step).trace.given == Accepted(s, step, latest)
  {
    ReachedFollows(s, latest);
    hide Inv, Apply, Script;
    StepFollows(s, latest, step);
  }

  // ---- Where the code falls short --------------------------------------------------------------------------

  /** An entry that shows nothing in the bubble. */
  predicate Silent(entry: Entry) { entry.OtherEntry? || (entry.ToolResult? && entry.result == "") }

  predicate AllSilent(p: seq<Entry>, a: nat, n: nat)
    requires n <= |p|
  {
    forall i :: a <= i < n ==> Silent(p[i])
  }

  lemma {:induction false} SilentBuild(p: seq<Entry>, a: nat, n: nat, last: nat)
    requires a <= n <= |p|
    ensures Build(p, a, n, last).0 == [] <==> AllSilent(p, a, n)
  {
    if n > a {
      SilentBuild(p, a, n - 1, last);
    }
  }

  lemma {:induction false} HeadAfterFinish(s: Cot)
    requires Ready(s) && s.settled
    ensures var t := Head(s);
      && t.settled && t.trace.finishedAt == s.trace.finishedAt
      && (if s.pending.Some? && |s.pending.value| > s.sentCount
          then t.trace.given == s.trace.given + s.pending.value[s.sentCount..]
          else t.trace.given == s.trace.given)
    decreases s.pending.Some?
  {
    hide Script, Build;
    if s.pending.Some? && |s.pending.value| > s.sentCount {
      var (events, u) := Record(s.(pending := None), s.pending.value);
      if events == [] {
        RecordKeeps(s.(pending := None), s.pending.value);
        assert u.trace.wire + [] == u.trace.wire;
        HeadAfterFinish(u.(sentCount := |s.pending.value|));
      }
    }
  }

  /** What a finished bubble sends of a late update: the events of its new entries, if there are any. */
  lemma LateEntriesSent(s: Cot)
    requires s.cotId && !s.disabled && s.settled && s.pending.Some?
    ensures s.trace.wire <= Head(s).trace.wire
    ensures Head(s).trace.wire != s.trace.wire <==> !AllSilent(s.pending.value, s.sentCount, |s.pending.value|)
  {
    hide Build;
    var p := s.pending.value;
    if |p| > s.sentCount {
      SilentBuild(p, s.sentCount, |p|, s.last);
      var (events, u) := Record(s.(pending := None), p);
      if events == [] {
        assert Head(u.(sentCount := |p|)).trace.wire == s.trace.wire;
      }
    }
  }

  /**
   * Something is sent behind RUN_FINISHED exactly when, while the closing events were on their way, an
   * update came in whose entries beyond those sent show something in the bubble.
   */
  lemma EntriesAfterTheFinish(s: Cot)
    requires Reachable(s) && s.stage == Appending([], Ended)
    ensures var t := Appended(s, true);
      && t.settled && t.trace.finishedAt == Some(|s.trace.given|) && s.trace.wire <= t.trace.wire
      && (t.trace.wire != s.trace.wire <==>
            s.pending.Some? && !AllSilent(s.pending.value, s.sentCount, |s.pending.value|))
  {
    ReachableOk(s);
    assert s.trace.wire + [] == s.trace.wire;
    hide Script, Head;
    var u := s.(settled := true);
    if u.pending.Some? {
      HeadAfterFinish(u);
      LateEntriesSent(u);
    }
  }

  lemma {:induction false} HeadRemembersFinish(s: Cot)
    ensures Head(s).finish == s.finish
    decreases s.pending.Some?
  {
    if s.cotId && !s.disabled && s.pending.Some? && |s.pending.value| > s.sentCount {
      hide Build;
      var (events, u) := Record(s.(pending := None), s.pending.value);
      if events == [] {
        HeadRemembersFinish(u.(sentCount := |s.pending.value|));
      }
    }
  }

  /**
   * A finish request takes effect exactly when the bubble exists and was not asked to finish before; while
   * the create call is under way it does nothing, and nothing remembers it.
   */
  lemma FinalizeTakesEffect(s: Cot, status: Finish)
    requires Reachable(s)
    ensures Finalize(s, status) != s <==> s.cotId && (if s.disabled then !s.settled else s.finish.None?)
    ensures s.stage.Creating? ==> Finalize(s, status) == s && Abort(s) == s
  {
    ReachableOk(s);
    hide Script, Head;
    if s.cotId && !s.disabled && s.finish.None? && s.stage.Idle? {
      HeadRemembersFinish(s.(finish := Some(status)));
    }
  }

  /** An update opens the bubble, and a finish request during its create call leaves no trace. */
  lemma LostFinish(entries: seq<Entry>, status: Finish)
    ensures var s := Finalize(Update(FRESH, entries), status);
      s == Update(FRESH, entries) && s.stage.Creating? && s.finish.None?
  {
  }
}
