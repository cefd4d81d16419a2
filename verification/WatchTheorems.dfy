/** The watch protocol over whole runs: the node's copy, continuity, no stranded event, termination. */
module WatchTheorems {
  import opened Options
  import opened Mapper
  import opened MapperLaws
  import opened EventLog
  import opened WatchProtocol
  import opened WatchSafety
  import opened WatchRuns
  import opened WatchEvents

  // ---- The node's copy -------------------------------------------------------------------------------

  /** What the node holds of a session: the items of the events numbered `start` to `end - 1`. */
  datatype Replica = Replica(history: History, start: nat, end: nat, items: seq<Item>)

  ghost predicate ExactCopy(r: Replica, book: Book) {
    r.start <= r.end <= |LogOf(book, r.history)| && r.items == ItemsIn(LogOf(book, r.history), r.start, r.end)
  }

  /** A node appends a push that continues what it holds and starts over with any other. */
  function Receive(r: Replica, p: Push): Replica {
    if p.history == r.history && p.from == r.end then Replica(r.history, r.start, p.to, r.items + p.Items())
    else Replica(p.history, p.from, p.to, p.Items())
  }

  function ReceiveAll(r: Replica, sent: seq<Push>): Replica {
    if sent == [] then r else Receive(ReceiveAll(r, sent[..|sent| - 1]), sent[|sent| - 1])
  }

  lemma {:induction false} ReceiveExact(r: Replica, sent: seq<Push>, book: Book)
    requires ExactCopy(r, book) && AllExact(sent, book)
    ensures ExactCopy(ReceiveAll(r, sent), book)
    ensures sent != [] ==>
      var (copy, last) := (ReceiveAll(r, sent), sent[|sent| - 1]); copy.history == last.history && copy.end == last.to
  {
    if sent != [] {
      var init, p := sent[..|sent| - 1], sent[|sent| - 1];
      ReceiveExact(r, init, book);
      assert Exact(p, book);
      var before := ReceiveAll(r, init);
      if p.history == before.history && p.from == before.end {
        ItemsInSplit(LogOf(book, p.history), before.start, p.from, p.to);
      }
    }
  }

  lemma GrownCopy(r: Replica, book: Book, later: Book)
    requires ExactCopy(r, book) && Grows(book, later)
    ensures ExactCopy(r, later)
  {
    assert LogOf(book, r.history) <= LogOf(later, r.history);
    ItemsInGrown(LogOf(book, r.history), LogOf(later, r.history), r.start, r.end);
  }

  /**
   * Page-then-watch: a node that took a page ending at `since` and watches from there holds, after
   * any run, exactly the items of a slice of the log it names, with none missing or repeated; and
   * once something was pushed it stands where the watch stands.
   */
  lemma NodeHoldsASlice(book: Book, page: Replica, steps: seq<Step>, s: Session)
    requires ExactCopy(page, book) && Reachable(book, page.end, steps, s)
    ensures var copy := ReceiveAll(page, s.w.line.sent);
      && ExactCopy(copy, s.book)
      && (s.w.line.sent != [] ==> s.w.line.history == Some(copy.history) && s.w.line.toSeq == Some(copy.end))
  {
    var s0 := Session(Opened(page.end), book, book, []);
    Starts(book, page.end);
    RunKeeps(s0, steps, s, page.end);
    RunGrows(s0, steps, s);
    GrownCopy(page, book, s.book);
    ReceiveExact(page, s.w.line.sent, s.book);
  }

  // ---- Continuity ------------------------------------------------------------------------------------

  lemma PumpChain(w: Watch, book: Book, since: nat)
    requires WatchOk(w, book, since)
    ensures ChainFrom(EnterDrain(w).line.sent, |w.line.sent|, w.repairTried)
  {
    if !w.catchUp {
      DrainQueueLine(w, book, since);
    }
  }

  lemma PumpStepChain(s: Session, step: Step, since: nat)
    requires Inv(s, since) && Enabled(s, step) && (step.FlushTimer? || step.StartTimer? || step.Loop?)
    ensures ChainFrom(Apply(s, step).w.line.sent, |s.w.line.sent|, s.w.repairTried)
  {
    hide DrainQueue, EnterDrain, Grows, AllExact, Linked, AllKnown, QueueVoice;
    match step
    case FlushTimer =>
      var w := s.w.(flushArmed := false, dirty := false);
      SameWatchOk(s.w, w, s.book, since);
      PumpChain(w, s.book, since);
    case StartTimer =>
      var w := s.w.(startArmed := false, dirty := false);
      SameWatchOk(s.w, w, s.book, since);
      PumpChain(w, s.book, since);
    case Loop =>
      var w := s.w.(dirty := false);
      SameWatchOk(s.w, w, s.book, since);
      PumpChain(w, s.book, since);
  }

  lemma StepChain(s: Session, step: Step, since: nat)
    requires Inv(s, since) && Enabled(s, step)
    ensures ChainFrom(Apply(s, step).w.line.sent, |s.w.line.sent|, s.w.repairTried || step.Resume?)
  {
    hide DrainQueue, EnterDrain, PageShown, Grows, AllExact, Linked, AllKnown, QueueVoice, FromCursor, Pump, OnDrained;
    match step
    case Page(_, _, _) =>
      if !s.w.closed {
        PageKeeps(s.w, s.issued, s.book, step.answer, step.snapshot, step.limit, since);
      }
    case Resume =>
      var w := s.w.(repairTried := true);
      SameWatchOk(s.w, w, s.book, since);
      DrainQueueLine(w, s.book, since);
    case FlushTimer => PumpStepChain(s, step, since);
    case StartTimer => PumpStepChain(s, step, since);
    case Loop => PumpStepChain(s, step, since);
    case _ =>
  }

  /**
   * Whatever happens next, the pushes it causes continue the push before them when they name the
   * same history; they skip ahead only while a repair read has been tried since the queue was last
   * drained in full. They never go back.
   */
  lemma PushesContinue(book: Book, since: nat, steps: seq<Step>, s: Session, step: Step)
    requires Reachable(book, since, steps, s) && Enabled(s, step)
    ensures ChainFrom(Apply(s, step).w.line.sent, |s.w.line.sent|, s.w.repairTried || step.Resume?)
  {
    Starts(book, since);
    RunKeeps(Session(Opened(since), book, book, []), steps, s, since);
    StepChain(s, step, since);
  }

  // ---- No stranded event -------------------------------------------------------------------------------

  /** Someone will look at the queue again: a timer is set, or the pump is on its way to it. */
  predicate WillDrain(w: Watch) {
    w.flushArmed || w.stage.Reading? || w.stage.CaughtUp? || (w.stage.Drained? && (w.dirty || w.catchUp))
  }

  ghost predicate Flow(w: Watch) {
    && (w.stage.Reading? || w.stage.CaughtUp? ==> !w.catchUp)
    && (w.closed ==> w.queue == [])
    && (!w.closed && w.queue != [] ==> WillDrain(w))
    && (!w.closed && w.catchUp ==> w.startArmed || w.stage.Drained?)
  }

  lemma DrainEmpties(w: Watch)
    ensures var w' := DrainQueue(w);
      && (w'.queue != [] ==> w'.catchUp)
      && (w.repairTried ==> w'.queue == [] && w'.catchUp == w.catchUp)
      && w'.stage == w.stage && w'.closed == w.closed && w'.dirty == w.dirty
      && w'.flushArmed == w.flushArmed && w'.startArmed == w.startArmed
      && (w.queue == [] ==> w' == w)
  {
    if w.queue != [] {
      LeftIsQueued(w.line, SortWithinHistories(w.queue), [], w.repairTried);
    }
  }

  lemma EnterFlow(w: Watch)
    requires !w.closed
    ensures Flow(EnterDrain(w))
  {
    DrainEmpties(w);
  }

  lemma PumpFlow(w: Watch)
    requires Flow(w.(flushArmed := true, startArmed := true))
    ensures w.stage == Idle || w.closed ==> Flow(Pump(w))
    ensures w.stage != Idle && !w.closed && (w.catchUp ==> w.stage.Drained?) ==> Flow(Pump(w))
  {
    if !w.closed && w.stage == Idle {
      EnterFlow(w.(dirty := false));
    }
  }

  lemma ResumeFlow(w: Watch)
    requires Flow(w) && w.stage.CaughtUp?
    ensures Flow(OnCaughtUp(w))
  {
    DrainEmpties(w.(repairTried := true));
  }

  lemma LoopFlow(w: Watch)
    requires Flow(w) && w.stage.Drained?
    ensures Flow(OnDrained(w))
  {
    if (w.dirty || w.catchUp) && !w.closed {
      EnterFlow(w.(dirty := false));
    }
  }

  lemma StepFlow(s: Session, step: Step)
    requires Flow(s.w) && Enabled(s, step)
    ensures Flow(Apply(s, step).w)
  {
    hide DrainQueue, FromCursor, NothingNew, NewEvents, PageShown, Known;
    match step
    case FlushTimer => PumpFlow(s.w.(flushArmed := false));
    case StartTimer => PumpFlow(s.w.(startArmed := false));
    case Loop => LoopFlow(s.w);
    case Resume => ResumeFlow(s.w);
    case _ =>
  }

  lemma {:induction false} RunFlow(s: Session, steps: seq<Step>, t: Session)
    requires Flow(s.w) && RunsTo(s, steps, t)
    ensures Flow(t.w)
    decreases steps
  {
    if steps != [] {
      StepFlow(s, steps[0]);
      RunFlow(Apply(s, steps[0]), steps[1..], t);
    }
  }

  lemma {:induction false} RunKeepsEvent(s: Session, steps: seq<Step>, t: Session, since: nat, x: Live)
    requires Inv(s, since) && RunsTo(s, steps, t) && Kept(s.w, since, x)
    ensures Kept(t.w, since, x)
    decreases steps
  {
    hide Inv, Kept, Apply, Enabled;
    if steps != [] {
      StepKeepsEvent(s, steps[0], since, x);
      StepKeeps(s, steps[0], since);
      RunKeepsEvent(Apply(s, steps[0]), steps[1..], t, since, x);
    }
  }

  /** The event is announced after the first `n` announcements. */
  predicate Later(arrived: seq<Live>, n: nat, x: Live) { exists i :: n <= i < |arrived| && arrived[i] == x }

  /** The events announced on the way from `s` to `t` are queued when they are announced. */
  lemma {:induction false} RunKeepsArrivals(s: Session, steps: seq<Step>, t: Session, since: nat, x: Live)
    requires Inv(s, since) && RunsTo(s, steps, t) && (since == 0 || s.w.line.sent != [])
    ensures s.arrived <= t.arrived
    ensures Later(t.arrived, |s.arrived|, x) ==> Kept(t.w, since, x)
    decreases steps
  {
    hide Inv, Kept;
    if steps != [] {
      var step, u := steps[0], Apply(s, steps[0]);
      StepKeeps(s, step, since);
      StepSent(s, step);
      hide Enabled, After1;
      RunKeepsArrivals(u, steps[1..], t, since, x);
      if Later(t.arrived, |s.arrived|, x) && !Later(t.arrived, |u.arrived|, x) {
        assert step == Arrive(x) && u.arrived == s.arrived + [x];
        ArrivedIsKept(s, x, since);
        RunKeepsEvent(u, steps[1..], t, since, x);
      }
    }
  }

  /**
   * No event is stranded. From any moment on at which something has been pushed (from the start, for a
   * watch without a position), and as long as the watch is open, every event that is queued, comes in
   * later, or lies behind a push of its history stays behind one or is queued with a drain on its way.
   */
  lemma NothingStranded(book: Book, since: nat, steps: seq<Step>, s: Session, more: seq<Step>, t: Session, x: Live)
    requires Reachable(book, since, steps, s) && (since == 0 || s.w.line.sent != [])
    requires RunsTo(s, more, t) && !s.w.closed && !t.w.closed
    requires x in s.w.queue || Behind(s.w.line, x) || Later(t.arrived, |s.arrived|, x)
    ensures Behind(t.w.line, x) || (x in t.w.queue && WillDrain(t.w))
  {
    var s0 := Session(Opened(since), book, book, []);
    Starts(book, since);
    RunKeeps(s0, steps, s, since);
    RunFlow(s0, steps, s);
    RunFlow(s, more, t);
    if x in s.w.queue || Behind(s.w.line, x) {
      RunKeepsEvent(s, more, t, since, x);
    } else {
      RunKeepsArrivals(s, more, t, since, x);
    }
  }

  // ---- The pump ends -----------------------------------------------------------------------------------

  predicate Internal(step: Step) { step.Page? || step.ReadFailed? || step.Resume? || step.Loop? }

  /** How far the pump is from ending. */
  function Phase(w: Watch): nat {
    var again := if w.dirty then 10 else 0;
    match w.stage
    case Idle => 0
    case Drained => 1 + again + if w.catchUp then 5 else 0
    case CaughtUp => 3 + again
    case Reading(_) => 4 + again
  }

  /** How much of a log of `bound` events the catch-up has still to read. */
  function Unread(w: Watch, bound: nat): nat {
    if w.stage.Reading? && w.stage.cursor <= bound then bound + 1 - w.stage.cursor else 0
  }

  /** Less is left to do, in the lexicographic order of phase and unread events. */
  predicate LessWork(w': Watch, w: Watch, bound: nat) {
    Phase(w') < Phase(w) || (Phase(w') == Phase(w) && Unread(w', bound) < Unread(w, bound))
  }

  lemma PageShrinksWork(w: Watch, issued: Book, book: Book, a: Answer, snapshot: Snapshot, limit: nat, bound: nat)
    requires ValidBook(book) && |LogOf(book, snapshot.history)| <= bound
    requires w.stage.Reading? && !w.closed && PageShown(issued, book, w.stage.cursor, a, snapshot, limit)
    ensures LessWork(OnPage(w, a), w, bound)
  {
    PageEvents(issued, book, w.stage.cursor, a, snapshot, limit);
    if a.events != [] {
      assert a.events[|a.events| - 1].seqNo == w.stage.cursor + |a.events| - 1;
    }
  }

  lemma StepShrinksWork(s: Session, step: Step, bound: nat, since: nat)
    requires Inv(s, since) && Flow(s.w) && Enabled(s, step) && Internal(step)
    requires forall h <- s.book :: |s.book[h]| <= bound
    ensures LessWork(Apply(s, step).w, s.w, bound)
  {
    match step
    case Page(answer, snapshot, limit) =>
      if !s.w.closed {
        PageShrinksWork(s.w, s.issued, s.book, answer, snapshot, limit, bound);
      }
    case ReadFailed =>
    case Resume => DrainEmpties(s.w.(repairTried := true));
    case Loop => DrainEmpties(s.w.(dirty := false));
  }

  /** A bound on the steps the pump still takes on its own. */
  function Rank(w: Watch, bound: nat): nat { Phase(w) * (bound + 2) + Unread(w, bound) }

  lemma {:induction false} Multiples(a: nat, b: nat, n: nat)
    requires a < b
    ensures a * n + n <= b * n
  {
    assert b * n == (b - 1) * n + n;
    if a < b - 1 {
      Multiples(a, b - 1, n);
    }
  }

  lemma LessRank(w': Watch, w: Watch, bound: nat)
    requires LessWork(w', w, bound)
    ensures Rank(w', bound) < Rank(w, bound)
  {
    assert Unread(w', bound) < bound + 2;
    if Phase(w') < Phase(w) {
      Multiples(Phase(w'), Phase(w), bound + 2);
    }
  }

  /** The pump asks for a repair: it goes from a drain to a read. */
  ghost predicate Repairs(s: Session, step: Step)
    requires Enabled(s, step)
  {
    s.w.stage.Drained? && Apply(s, step).w.stage.Reading?
  }

  ghost function RepairsIn(s: Session, steps: seq<Step>, t: Session): nat
    requires RunsTo(s, steps, t)
    decreases steps
  {
    if steps == [] then 0
    else (if Repairs(s, steps[0]) then 1 else 0) + RepairsIn(Apply(s, steps[0]), steps[1..], t)
  }

  /** No further repair can be asked for: one is under way, or nothing is left to drain. */
  predicate Settled(w: Watch) { w.stage.Reading? || w.stage.CaughtUp? || (w.queue == [] && !w.catchUp) }

  lemma StepSettles(s: Session, step: Step)
    requires Flow(s.w) && Enabled(s, step) && Internal(step)
    ensures Settled(s.w) ==> Settled(Apply(s, step).w) && !Repairs(s, step)
    ensures Repairs(s, step) ==> Settled(Apply(s, step).w)
  {
    hide PageShown, FromCursor, NewEvents, NothingNew, DrainQueue;
    DrainEmpties(s.w.(repairTried := true));
    DrainEmpties(s.w.(dirty := false));
  }

  lemma {:induction false} InternalRun(s: Session, steps: seq<Step>, t: Session, since: nat, bound: nat)
    requires Inv(s, since) && Flow(s.w) && RunsTo(s, steps, t) && forall i :: 0 <= i < |steps| ==> Internal(steps[i])
    requires forall h <- s.book :: |s.book[h]| <= bound
    ensures |steps| + Rank(t.w, bound) <= Rank(s.w, bound)
    ensures RepairsIn(s, steps, t) <= if Settled(s.w) then 0 else 1
    decreases steps
  {
    hide Inv, Flow, Rank, Settled, Repairs, After1;
    if steps != [] {
      var u := Apply(s, steps[0]);
      StepKeeps(s, steps[0], since);
      StepFlow(s, steps[0]);
      StepShrinksWork(s, steps[0], bound, since);
      LessRank(u.w, s.w, bound);
      StepSettles(s, steps[0]);
      assert forall i :: 0 <= i < |steps| - 1 ==> steps[1..][i] == steps[i + 1];
      InternalRun(u, steps[1..], t, since, bound);
    }
  }

  /**
   * With no new arrivals the pump ends: a run of its own steps is no longer than what was left to do, it
   * asks for a repair at most once, and when no step is left and no timer is set the queue is empty.
   */
  lemma PumpEnds(book: Book, since: nat, before: seq<Step>, s: Session, steps: seq<Step>, t: Session, bound: nat)
    requires Reachable(book, since, before, s) && RunsTo(s, steps, t)
    requires forall i :: 0 <= i < |steps| ==> Internal(steps[i])
    requires forall h <- s.book :: |s.book[h]| <= bound
    ensures |steps| <= Rank(s.w, bound) && RepairsIn(s, steps, t) <= 1
    ensures !t.w.closed && t.w.stage.Idle? && !t.w.flushArmed ==> t.w.queue == []
  {
    var s0 := Session(Opened(since), book, book, []);
    Starts(book, since);
    RunKeeps(s0, before, s, since);
    RunFlow(s0, before, s);
    RunFlow(s, steps, t);
    InternalRun(s, steps, t, since, bound);
  }

  // ---- Gaps ------------------------------------------------------------------------------------------------

  /**
   * A queue that starts beyond the watch's position: without a repair tried since the last full drain
   * nothing is pushed and a read is asked for; otherwise the gap is skipped and the node sees it in
   * `from_seq`.
   */
  lemma GapIsReadOrShown(w: Watch)
    requires w.queue != [] && w.line.toSeq.Some? && !w.catchUp
    requires forall live <- w.queue :: !Turns(w.line, live) && live.event.seqNo > w.line.toSeq.value
    ensures var w' := DrainQueue(w);
      && (w'.catchUp <==> !w.repairTried)
      && (w'.catchUp ==> w'.line == w.line && w'.queue == SortWithinHistories(w.queue))
      && (!w'.catchUp ==> |w'.line.sent| > |w.line.sent| && w'.line.sent[|w.line.sent|].from > w.line.toSeq.value)
  {
    var sorted := SortWithinHistories(w.queue);
    SortWithinKeeps(w.queue);
    SortWithinSorts(w.queue);
    InSorted(sorted, w.queue, sorted[0]);
    var t := Take(w.line, [], sorted[0], w.repairTried);
    if w.repairTried {
      assert t == Next(w.line.(toSeq := None), [sorted[0]]);
      LeftIsQueued(w.line, sorted, [], true);
      NextPush(w.line.(toSeq := None), sorted[1..], [sorted[0]], true);
    } else {
      assert t == Missing(w.line);
      assert DrainLoop(w.line, sorted, [], false) == Drain(w.line, sorted);
    }
  }

  /**
   * The mark that a repair was tried outlives the gap it was tried for: after a catch-up that found
   * nothing, a gap that opens later is skipped without a read of its own, although the log holds the
   * missing events.
   */
  lemma LaterGapIsNotRead(log: seq<Event>)
    requires Numbered(log, 0) && |log| == 5
    ensures
      var idle := OnDrained(OnCaughtUp(OnPage(OnStartTimer(Opened(1)), Answer([], "h", 0, false))));
      var w := OnFlushTimer(OnSessionEvent(idle, Live(log[4], "h")));
      && idle.stage == Idle && idle.line.sent == []
      && w.line.sent == [Push("h", 4, 5, [log[4]])]
      && !w.stage.Reading? && !w.catchUp
  {
    var started := OnStartTimer(Opened(1));
    assert started.stage == Reading(1);
    var idle := OnDrained(OnCaughtUp(OnPage(started, Answer([], "h", 0, false))));
    var live := Live(log[4], "h");
    var q := [live];
    assert OnSessionEvent(idle, live).queue == q;
    OneRun(live);
    var line := Line(Some("h"), Some(1), []);
    assert idle.line == line && idle.repairTried;
    assert Take(line, [], live, true) == Next(line.(toSeq := None), q);
    assert q[1..] == [];
    assert DrainLoop(line, q, [], true) == DrainLoop(line.(toSeq := None), [], q, true);
    assert EventsOf(q) == [log[4]];
  }
}
