/** A watch reads on until it stands at the end of the log, and says nothing once it is closed. */
module WatchCatchUp {
  import opened Options
  import opened EventLog
  import opened WatchProtocol
  import opened WatchSafety
  import opened WatchRuns
  import opened WatchTheorems

  // ---- A due read is made ----------------------------------------------------------------------------------

  /** A catch-up is due and someone will start it, or its read is under way from where the node stands. */
  predicate DueOrReading(w: Watch) {
    (w.catchUp && (w.startArmed || w.stage.Drained?)) || w.stage == Reading(w.line.toSeq.GetOr(0))
  }

  /** Nothing makes a watch forget a catch-up that is due: it stays due until its read is issued. */
  lemma DueReadIsIssued(book: Book, since: nat, steps: seq<Step>, s: Session, step: Step)
    requires Reachable(book, since, steps, s) && Enabled(s, step) && !step.Unwatch?
    requires !s.w.closed && s.w.catchUp
    ensures DueOrReading(Apply(s, step).w) && Apply(s, step).w.line == s.w.line
  {
    var s0 := Session(Opened(since), book, book, []);
    RunFlow(s0, steps, s);
    hide DrainQueue;
  }

  /** Until its first read has come back, a watch from a position pushes nothing, and that read is due or under way. */
  ghost predicate Untold(s: Session, since: nat) {
    && s.w.line == Line(None, Some(since), []) && !s.w.closed && !s.w.repairTried
    && ((s.w.catchUp && s.w.startArmed && s.w.stage.Idle?) || (!s.w.catchUp && s.w.stage == Reading(since)))
  }

  lemma {:induction false} FirstReadComesFirst(s: Session, steps: seq<Step>, t: Session, since: nat)
    requires Untold(s, since) && RunsTo(s, steps, t)
    requires forall i :: 0 <= i < |steps| ==> !steps[i].Page? && !steps[i].ReadFailed? && !steps[i].Unwatch?
    ensures Untold(t, since)
    decreases steps
  {
    if steps != [] {
      FirstReadComesFirst(Apply(s, steps[0]), steps[1..], t, since);
    }
  }

  /** Before anything else, a watch from a position reads from there. */
  lemma WatchStartsWithARead(book: Book, since: nat, steps: seq<Step>, t: Session)
    requires since > 0 && Reachable(book, since, steps, t)
    requires forall i :: 0 <= i < |steps| ==> !steps[i].Page? && !steps[i].ReadFailed? && !steps[i].Unwatch?
    ensures t.w.line.sent == [] && ((t.w.catchUp && t.w.startArmed) || t.w.stage == Reading(since))
  {
    FirstReadComesFirst(Session(Opened(since), book, book, []), steps, t, since);
  }

  // ---- A read goes on to the end ------------------------------------------------------------------------------

  /** Where a page leaves the watch: at the end of a log no older than the read, or reading on from its last event. */
  ghost predicate ReadOn(issued: Book, book: Book, w: Watch) {
    && w.line.history.Some? && w.line.toSeq.GetOr(0) <= |LogOf(book, w.line.history.value)|
    && if w.stage.Reading? then w.stage.cursor == w.line.toSeq.GetOr(0) && w.line.sent != []
       else w.stage.CaughtUp? && w.line.toSeq.GetOr(0) >= |LogOf(issued, w.line.history.value)|
  }

  /** An answer that announces no more reaches the end the log had when the read was issued. */
  lemma PageMore(issued: Book, book: Book, c: nat, a: Answer, snapshot: Snapshot, limit: nat)
    requires PageShown(issued, book, c, a, snapshot, limit)
    ensures !a.hasMore ==> c + |a.events| >= |LogOf(issued, a.history)|
  {
    ForwardAnswer(a, c, limit, snapshot);
  }

  lemma FullPageReadsOn(w: Watch, issued: Book, book: Book, a: Answer, line: Line)
    requires w.stage.Reading? && !w.closed && a.events != [] && FromCursor(a.events, w.stage.cursor) == a.events
    requires line == NewEvents(w.line, a, a.events) && line.sent != []
    requires line.history == Some(a.history) && line.toSeq == Some(w.stage.cursor + |a.events|)
    requires w.stage.cursor + |a.events| <= |LogOf(book, a.history)|
    requires !a.hasMore ==> w.stage.cursor + |a.events| >= |LogOf(issued, a.history)|
    ensures ReadOn(issued, book, OnPage(w, a))
  {
    hide NewEvents, FromCursor, LogOf;
  }

  lemma EmptyPageReadsOn(w: Watch, issued: Book, book: Book, a: Answer)
    requires w.stage.Reading? && !w.closed && a.events == [] && w.stage.cursor == w.line.toSeq.GetOr(0)
    requires |LogOf(issued, a.history)| <= a.lastSeq + 1 <= |LogOf(book, a.history)| && a.lastSeq + 1 <= w.stage.cursor
    ensures ReadOn(issued, book, OnPage(w, a))
  {
    hide LogOf;
  }

  lemma PageReadsOn(s: Session, step: Step, since: nat)
    requires Inv(s, since) && Enabled(s, step) && step.Page? && !s.w.closed
    ensures ReadOn(s.issued, s.book, Apply(s, step).w)
  {
    hide PageShown, Answers, FromCursor, LineOk, LogOf, OnPage, NewEvents, ReadOn, AllKnown, QueueVoice;
    var (a, c) := (step.answer, s.w.stage.cursor);
    PageEvents(s.issued, s.book, c, a, step.snapshot, step.limit);
    PageMore(s.issued, s.book, c, a, step.snapshot, step.limit);
    if a.events != [] {
      NewEventsExact(s.w.line, a, s.book, c, since);
      FullPageReadsOn(s.w, s.issued, s.book, a, NewEvents(s.w.line, a, a.events));
    } else {
      EmptyPageReadsOn(s.w, s.issued, s.book, a);
    }
  }

  /**
   * While a read is under way only its answer, its failure or the end of the watch change the stage. An
   * answer is followed by the next read as long as the log goes on; the catch-up ends only where the log ended
   * when the last read was issued, or later.
   */
  lemma CatchUpReadsOn(book: Book, since: nat, steps: seq<Step>, s: Session, step: Step)
    requires Reachable(book, since, steps, s) && Enabled(s, step) && !s.w.closed && s.w.stage.Reading?
    ensures var t := Apply(s, step);
      && (!step.Page? && !step.ReadFailed? ==> t.w.stage == s.w.stage && t.w.line == s.w.line)
      && (step.ReadFailed? ==> t.w.stage.CaughtUp? && t.w.line == s.w.line)
      && (step.Page? ==> ReadOn(s.issued, s.book, t.w))
  {
    Starts(book, since);
    RunKeeps(Session(Opened(since), book, book, []), steps, s, since);
    if step.Page? {
      PageReadsOn(s, step, since);
    }
    hide Inv;
  }

  /**
   * Page-then-watch, to the end: when a catch-up ends with an answer, a node that took a page ending at
   * `page.end` holds a slice that reaches at least to where the log ended when the last read was issued. If
   * nothing has been pushed, the log it is now told of held nothing beyond its page.
   */
  lemma CaughtUpNodeHoldsTheEnd(book: Book, page: Replica, steps: seq<Step>, s: Session, step: Step)
    requires ExactCopy(page, book) && Reachable(book, page.end, steps, s)
    requires Enabled(s, step) && step.Page? && !s.w.closed && Apply(s, step).w.stage.CaughtUp?
    ensures var t := Apply(s, step);
      var copy := ReceiveAll(page, t.w.line.sent);
      && t.w.line.history.Some?
      && (t.w.line.sent != [] ==>
            && ExactCopy(copy, t.book) && Some(copy.history) == t.w.line.history
            && copy.end >= |LogOf(s.issued, copy.history)|)
      && (t.w.line.sent == [] ==>
            |LogOf(s.issued, t.w.line.history.value)| <= page.end <= |LogOf(t.book, t.w.line.history.value)|)
  {
    var (t, s0) := (Apply(s, step), Session(Opened(page.end), book, book, []));
    Starts(book, page.end);
    RunKeeps(s0, steps, s, page.end);
    StepKeeps(s, step, page.end);
    PageReadsOn(s, step, page.end);
    RunGrows(s0, steps, s);
    GrownCopy(page, book, s.book);
    ReceiveExact(page, t.w.line.sent, t.book);
    hide Apply, ExactCopy;
  }

  /** A node that stands at the end of the log it knows is told nothing. */
  lemma UpToDateIsQuiet(s: Session, step: Step)
    requires Enabled(s, step) && step.Page? && step.answer.events == []
    requires s.w.line.history == Some(step.answer.history) && step.answer.lastSeq + 1 == s.w.stage.cursor
    ensures Apply(s, step).w.line == s.w.line
  {
  }

  // ---- After a drain, and after the end -------------------------------------------------------------------------

  /** Once a drain took its whole queue, the next gap is read for again. */
  lemma GapAfterADrainIsRead(w: Watch, next: seq<Live>)
    requires w.queue != [] && DrainQueue(w).queue == [] && !DrainQueue(w).catchUp && next != []
    requires var line := DrainQueue(w).line;
      line.toSeq.Some? && forall live <- next :: !Turns(line, live) && live.event.seqNo > line.toSeq.value
    ensures DrainQueue(DrainQueue(w).(queue := next)).catchUp
  {
    var u := DrainQueue(w).(queue := next);
    GapIsReadOrShown(u);
    hide DrainLoop, SortWithinHistories;
  }

  lemma ClosedStep(s: Session, step: Step)
    requires s.w.closed && s.w.queue == [] && Enabled(s, step)
    ensures var t := Apply(s, step); t.w.closed && t.w.queue == [] && t.w.line == s.w.line
  {
  }

  /** A closed watch stays closed, queues nothing and pushes nothing, whatever still comes back to it. */
  lemma {:induction false} ClosedSaysNothing(s: Session, steps: seq<Step>, t: Session)
    requires s.w.closed && s.w.queue == [] && RunsTo(s, steps, t)
    ensures t.w.closed && t.w.queue == [] && t.w.line == s.w.line
    decreases steps
  {
    hide Apply, Enabled;
    if steps != [] {
      ClosedStep(s, steps[0]);
      ClosedSaysNothing(Apply(s, steps[0]), steps[1..], t);
    }
  }

  /** So it is from the moment the node unwatches. */
  lemma UnwatchedSaysNothing(s: Session, steps: seq<Step>, t: Session)
    requires RunsTo(s, [Unwatch] + steps, t)
    ensures t.w.closed && t.w.queue == [] && t.w.line == s.w.line
  {
    assert ([Unwatch] + steps)[1..] == steps;
    ClosedSaysNothing(Apply(s, Unwatch), steps, t);
  }
}
