/**
 * Runs of a watch against growing and replaced logs: every interleaving of arriving events, timers,
 * catch-up pages and failures. The node's copy stays an exact slice, and no event is stranded.
 */
module WatchRuns {
  import opened Options
  import opened Mapper
  import opened MapperLaws
  import opened EventLog
  import opened WatchProtocol
  import opened WatchSafety

  // ---- The system --------------------------------------------------------------------------------

  /** A watch, the logs, the logs when the read under way was issued, and the events announced so far. */
  datatype Session = Session(w: Watch, book: Book, issued: Book, arrived: seq<Live>)

  datatype Step =
    | Grow(later: Book)
    | Arrive(live: Live)
    | FlushTimer
    | StartTimer
    | Page(answer: Answer, snapshot: Snapshot, limit: nat)
    | ReadFailed
    | Resume
    | Loop
    | Unwatch

  /** `answer` is a forward read from `cursor` of a log as it was at some moment between two books. */
  ghost predicate PageShown(issued: Book, book: Book, cursor: nat, answer: Answer, snapshot: Snapshot, limit: nat) {
    && LogOf(issued, snapshot.history) <= snapshot.log <= LogOf(book, snapshot.history)
    && Answers(answer, After(cursor - 1, limit), snapshot)
  }

  /**
   * What can happen next. Events are announced only once they are in their log; until the watch has
   * settled on a history they all come from one log; a page shows the log at some moment since the
   * read was issued.
   */
  ghost predicate Enabled(s: Session, step: Step) {
    match step
    case Grow(later) => ValidBook(later) && Grows(s.book, later)
    case Arrive(live) =>
      && Known(live, s.book)
      && (s.w.line.history.None? ==> forall i :: 0 <= i < |s.w.queue| ==> s.w.queue[i].history == live.history)
    case FlushTimer => s.w.flushArmed
    case StartTimer => s.w.startArmed
    case Page(answer, snapshot, limit) =>
      s.w.stage.Reading? && limit > 0 && PageShown(s.issued, s.book, s.w.stage.cursor, answer, snapshot, limit)
    case ReadFailed => s.w.stage.Reading?
    case Resume => s.w.stage.CaughtUp?
    case Loop => s.w.stage.Drained?
    case Unwatch => true
  }

  function After1(w: Watch, step: Step): Watch
    requires step.Page? || step.ReadFailed? ==> w.stage.Reading?
    requires step.Resume? ==> w.stage.CaughtUp?
    requires step.Loop? ==> w.stage.Drained?
  {
    match step
    case Grow(_) => w
    case Arrive(live) => OnSessionEvent(w, live)
    case FlushTimer => OnFlushTimer(w)
    case StartTimer => OnStartTimer(w)
    case Page(answer, _, _) => OnPage(w, answer)
    case ReadFailed => OnReadFailed(w)
    case Resume => OnCaughtUp(w)
    case Loop => OnDrained(w)
    case Unwatch => Close(w)
  }

  ghost function Apply(s: Session, step: Step): Session
    requires Enabled(s, step)
  {
    var w := After1(s.w, step);
    var issues := w.stage.Reading? && (step.Page? || !s.w.stage.Reading?);
    Session(w,
            if step.Grow? then step.later else s.book,
            if issues then s.book else s.issued,
            if step.Arrive? then s.arrived + [step.live] else s.arrived)
  }

  // ---- What every step keeps -----------------------------------------------------------------------

  function StartOf(since: nat): Option<nat> { if since > 0 then Some(since) else None }

  /** Until the watch has a history, everything queued is of one. */
  ghost predicate QueueVoice(w: Watch) {
    w.line.history.None? ==> forall i :: 0 <= i < |w.queue| ==> w.queue[i].history == w.queue[0].history
  }

  /** The read under way continues the position, and what was pushed was already in the log when it was issued. */
  ghost predicate ReadOk(line: Line, stage: Stage, issued: Book) {
    stage.Reading? ==>
      && stage.cursor == line.toSeq.GetOr(0)
      && (line.sent != [] ==> var p := line.sent[|line.sent| - 1]; p.to <= |LogOf(issued, p.history)|)
  }

  /** The event lies behind a push of its history: the node was shown a slice that ends after it. */
  ghost predicate Behind(line: Line, x: Live) {
    exists i :: 0 <= i < |line.sent| && line.sent[i].history == x.history && x.event.seqNo < line.sent[i].to
  }

  ghost predicate LineOk(line: Line, book: Book, since: nat) {
    AllExact(line.sent, book) && Linked(line, [], StartOf(since), true) && ChainFrom(line.sent, 0, true)
  }

  ghost predicate WatchOk(w: Watch, book: Book, since: nat) {
    ValidBook(book) && AllKnown(w.queue, book) && QueueVoice(w) && LineOk(w.line, book, since)
  }

  ghost predicate Inv(s: Session, since: nat) {
    && WatchOk(s.w, s.book, since)
    && Grows(s.issued, s.book)
    && (s.w.closed || ReadOk(s.w.line, s.w.stage, s.issued))
  }

  lemma Starts(book: Book, since: nat)
    requires ValidBook(book)
    ensures Inv(Session(Opened(since), book, book, []), since)
  {
  }

  // ---- Draining the queue ----------------------------------------------------------------------------

  lemma SortedQueue(queue: seq<Live>, book: Book)
    requires AllKnown(queue, book)
    ensures AllKnown(SortWithinHistories(queue), book)
    ensures forall x :: x in SortWithinHistories(queue) <==> x in queue
  {
    var sorted := SortWithinHistories(queue);
    SortWithinKeeps(queue);
    forall x ensures x in sorted <==> x in queue {
      InSorted(sorted, queue, x);
    }
    forall i | 0 <= i < |sorted| ensures Known(sorted[i], book) {
      assert sorted[i] in queue;
    }
  }

  /** A drain starts from nothing gathered, with the queue sorted. */
  lemma DrainReady(w: Watch, book: Book, since: nat)
    requires ValidBook(book) && AllKnown(w.queue, book) && QueueVoice(w) && LineOk(w.line, book, since) && w.queue != []
    ensures var (sorted, voice) := (SortWithinHistories(w.queue), w.queue[0].history);
      && Ready(w.line, [], book, voice) && AllKnown(sorted, book) && OneVoice(w.line, sorted, voice)
  {
    var sorted := SortWithinHistories(w.queue);
    SortedQueue(w.queue, book);
    forall i | 0 <= i < |sorted| && w.line.history.None? ensures sorted[i].history == w.queue[0].history {
      assert sorted[i] in w.queue;
    }
  }

  lemma {:induction false} LeftIsQueued(line: Line, queued: seq<Live>, run: seq<Live>, repairTried: bool)
    ensures var d := DrainLoop(line, queued, run, repairTried);
      && (forall x <- d.left :: x in queued)
      && (repairTried ==> d.left == [])
      && (d.left != [] ==> d.line.toSeq.Some?)
      && line.sent <= d.line.sent
    decreases queued
  {
    if queued != [] {
      var t := Take(line, run, queued[0], repairTried);
      if t.Next? {
        LeftIsQueued(t.line, queued[1..], t.run, repairTried);
      }
    }
  }

  /** Whatever comes next, what is gathered goes out in the next push. */
  lemma {:induction false} NextPush(line: Line, queued: seq<Live>, run: seq<Live>, repairTried: bool)
    requires run != []
    ensures var (sent, k) := (DrainLoop(line, queued, run, repairTried).line.sent, |line.sent|);
      && k < |sent|
      && sent[k].history == run[0].history && sent[k].from == line.toSeq.GetOr(run[0].event.seqNo)
      && sent[k].to > run[|run| - 1].event.seqNo
    decreases queued
  {
    if queued != [] {
      var t := Take(line, run, queued[0], repairTried);
      if t.Next? && t.line == line {
        NextPush(line, queued[1..], t.run, repairTried);
      } else if t.Next? {
        LeftIsQueued(t.line, queued[1..], t.run, repairTried);
      }
    }
  }

  lemma JoinChains(sent: seq<Push>, more: seq<Push>, skips: bool)
    requires sent <= more && ChainFrom(sent, 0, true) && ChainFrom(more, |sent|, skips)
    ensures ChainFrom(more, 0, true)
  {
    forall i | 0 < i < |more| ensures Consecutive(more[i - 1], more[i], true) {
      if i < |sent| {
        assert Consecutive(sent[i - 1], sent[i], true);
      }
    }
  }

  /** Draining the queue keeps the line in order, in whatever order the events came. */
  lemma DrainQueueLine(w: Watch, book: Book, since: nat)
    requires ValidBook(book) && AllKnown(w.queue, book) && QueueVoice(w) && LineOk(w.line, book, since)
    ensures var w' := DrainQueue(w);
      && LineOk(w'.line, book, since)
      && ChainFrom(w'.line.sent, |w.line.sent|, w.repairTried)
  {
    if w.queue != [] {
      var sorted := SortWithinHistories(w.queue);
      var voice := w.queue[0].history;
      DrainReady(w, book, since);
      DrainLoopExact(w.line, sorted, [], w.repairTried, book, voice);
      DrainLoopChain(w.line, sorted, [], w.repairTried, book, voice, StartOf(since), |w.line.sent|);
      LeftIsQueued(w.line, sorted, [], w.repairTried);
      var sent := DrainLoop(w.line, sorted, [], w.repairTried).line.sent;
      JoinChains(w.line.sent, sent, w.repairTried);
    }
  }

  lemma SortedDrainCovers(line: Line, queue: seq<Live>, repairTried: bool, book: Book, voice: History, x: Live)
    requires var sorted := SortWithinHistories(queue);
      Ready(line, [], book, voice) && AllKnown(sorted, book) && OneVoice(line, sorted, voice)
    requires x in queue
    ensures var d := DrainLoop(line, SortWithinHistories(queue), [], repairTried);
      Held(d.line.sent, |line.sent|, x) || AtOrBelow(line, x) || x in d.left
  {
    var sorted := SortWithinHistories(queue);
    SortWithinKeeps(queue);
    InSorted(sorted, queue, x);
    SortWithinSorts(queue);
    DrainLoopCovers(line, line, sorted, [], None, repairTried, book, voice, x);
  }

  lemma DrainLeavesCovered(w: Watch, book: Book, since: nat, x: Live)
    requires ValidBook(book) && AllKnown(w.queue, book) && QueueVoice(w) && LineOk(w.line, book, since)
    requires x in w.queue
    ensures var d := DrainLoop(w.line, SortWithinHistories(w.queue), [], w.repairTried);
      Held(d.line.sent, |w.line.sent|, x) || AtOrBelow(w.line, x) || x in d.left
  {
    DrainReady(w, book, since);
    SortedDrainCovers(w.line, w.queue, w.repairTried, book, w.queue[0].history, x);
  }

  /**
   * Every queued event is pushed by the drain in a push of its own history, or was at or below the
   * position before, or stays queued for after a repair.
   */
  lemma DrainQueueCovers(w: Watch, book: Book, since: nat, x: Live)
    requires ValidBook(book) && AllKnown(w.queue, book) && QueueVoice(w) && LineOk(w.line, book, since)
    requires x in w.queue
    ensures var w' := DrainQueue(w);
      Held(w'.line.sent, |w.line.sent|, x) || AtOrBelow(w.line, x) || (x in w'.queue && w'.catchUp)
  {
    DrainLeavesCovered(w, book, since, x);
  }

  lemma {:induction false} HistoryStays(line: Line, queued: seq<Live>, run: seq<Live>, repairTried: bool)
    requires line.history.Some?
    ensures DrainLoop(line, queued, run, repairTried).line.history.Some?
    decreases queued
  {
    if queued != [] {
      var t := Take(line, run, queued[0], repairTried);
      if t.Next? {
        HistoryStays(t.line, queued[1..], t.run, repairTried);
      }
    }
  }

  lemma DrainQueueLeft(w: Watch, book: Book)
    requires AllKnown(w.queue, book) && QueueVoice(w)
    ensures var w' := DrainQueue(w);
      AllKnown(w'.queue, book) && QueueVoice(w') && w.line.sent <= w'.line.sent && w'.closed == w.closed
  {
    hide SortWithinHistories, DrainLoop, Known;
    if w.queue != [] {
      var w' := DrainQueue(w);
      var sorted := SortWithinHistories(w.queue);
      SortedQueue(w.queue, book);
      LeftIsQueued(w.line, sorted, [], w.repairTried);
      forall i | 0 <= i < |w'.queue| ensures w'.queue[i] in w.queue && Known(w'.queue[i], book) {
        assert w'.queue[i] in sorted;
      }
      if w.line.history.Some? {
        HistoryStays(w.line, sorted, [], w.repairTried);
      }
    }
  }

  lemma DrainQueueKeeps(w: Watch, book: Book, since: nat)
    requires WatchOk(w, book, since)
    ensures WatchOk(DrainQueue(w), book, since)
  {
    DrainQueueLeft(w, book);
    DrainQueueLine(w, book, since);
  }

  // ---- Catch-up pages --------------------------------------------------------------------------------

  lemma {:induction false} FromCursorAll(events: seq<Event>, cursor: nat)
    requires Numbered(events, cursor)
    ensures FromCursor(events, cursor) == events
  {
    if events != [] {
      FromCursorAll(events[..|events| - 1], cursor);
    }
  }

  lemma PageSlice(log: seq<Event>, later: seq<Event>, c: nat, events: seq<Event>)
    requires Numbered(later, 0) && log <= later
    requires c + |events| <= |log| && events == log[c..c + |events|]
    ensures events == later[c..c + |events|] && Numbered(events, c)
    ensures FromCursor(events, c) == events
  {
    SliceOfGrown(log, later, c, c + |events|);
    SliceNumbered(later, c, c + |events|);
    FromCursorAll(events, c);
  }

  /** What a page holds: the log from the cursor on, as far as it goes. */
  lemma PageEvents(issued: Book, book: Book, c: nat, a: Answer, snapshot: Snapshot, limit: nat)
    requires PageShown(issued, book, c, a, snapshot, limit) && ValidBook(book)
    ensures var log := LogOf(book, a.history);
      && FromCursor(a.events, c) == a.events
      && (a.events != [] ==> c + |a.events| <= |log| && a.events == log[c..c + |a.events|] && Numbered(a.events, c))
      && (a.events == [] ==> a.lastSeq + 1 == |snapshot.log| <= c)
      && |LogOf(issued, a.history)| <= |snapshot.log| <= |log|
  {
    hide Answers;
    ForwardAnswer(a, c, limit, snapshot);
    if a.events != [] {
      hide FromCursor, Numbered;
      PageSlice(snapshot.log, LogOf(book, a.history), c, a.events);
    }
  }

  lemma NewEventsExact(line: Line, page: Answer, book: Book, cursor: nat, since: nat)
    requires LineOk(line, book, since) && page.events != [] && cursor == line.toSeq.GetOr(0)
    requires Numbered(page.events, cursor) && cursor + |page.events| <= |LogOf(book, page.history)|
    requires page.events == LogOf(book, page.history)[cursor..cursor + |page.events|]
    ensures var line' := NewEvents(line, page, page.events);
      && line' == Line(Some(page.history), Some(cursor + |page.events|),
                       line.sent + [Push(page.history, cursor, cursor + |page.events|, page.events)])
      && LineOk(line', book, since) && ChainFrom(line'.sent, |line.sent|, false)
  {
    var line' := NewEvents(line, page, page.events);
    assert page.events[|page.events| - 1].seqNo == cursor + |page.events| - 1;
    assert line'.sent[|line.sent|] == Push(page.history, cursor, cursor + |page.events|, page.events);
    assert Exact(line'.sent[|line.sent|], book);
    JoinChains(line.sent, line'.sent, false);
  }

  lemma NothingNewExact(line: Line, page: Answer, book: Book, cursor: nat, since: nat, end: nat)
    requires LineOk(line, book, since) && cursor == line.toSeq.GetOr(0)
    requires page.lastSeq + 1 == end <= cursor && end <= |LogOf(book, page.history)|
    requires line.sent != [] && line.sent[|line.sent| - 1].history == page.history ==>
      line.sent[|line.sent| - 1].to <= end
    ensures var line' := NothingNew(line, page, cursor);
      && line.sent <= line'.sent && line'.history.Some?
      && LineOk(line', book, since) && ChainFrom(line'.sent, |line.sent|, false)
  {
    var line' := NothingNew(line, page, cursor);
    if line'.sent != line.sent {
      assert line'.sent[|line.sent|] == Push(page.history, end, end, []);
      assert LogOf(book, page.history)[end..end] == [];
      assert Exact(line'.sent[|line.sent|], book);
    }
    JoinChains(line.sent, line'.sent, false);
  }

  ghost predicate PageAdds(line: Line, w': Watch, book: Book, since: nat) {
    && line.sent <= w'.line.sent
    && LineOk(w'.line, book, since) && ReadOk(w'.line, w'.stage, book)
    && ChainFrom(w'.line.sent, |line.sent|, false) && w'.line.history.Some?
  }

  lemma FullPageKeeps(w: Watch, book: Book, a: Answer, line: Line, p: Push, since: nat)
    requires w.stage.Reading? && !w.closed && a.events != [] && FromCursor(a.events, w.stage.cursor) == a.events
    requires line == NewEvents(w.line, a, a.events) == Line(Some(p.history), Some(p.to), w.line.sent + [p])
    requires LineOk(line, book, since) && ChainFrom(line.sent, |w.line.sent|, false)
    requires p.to <= |LogOf(book, p.history)|
    ensures PageAdds(w.line, OnPage(w, a), book, since)
  {
    hide NewEvents, LineOk, FromCursor, ChainFrom, LogOf;
  }

  lemma EmptyPageKeeps(w: Watch, book: Book, a: Answer, since: nat, end: nat)
    requires w.stage.Reading? && !w.closed && LineOk(w.line, book, since) && w.stage.cursor == w.line.toSeq.GetOr(0)
    requires a.events == [] && a.lastSeq + 1 == end <= w.stage.cursor && end <= |LogOf(book, a.history)|
    requires w.line.sent != [] && w.line.sent[|w.line.sent| - 1].history == a.history ==>
      w.line.sent[|w.line.sent| - 1].to <= end
    ensures PageAdds(w.line, OnPage(w, a), book, since)
  {
    NothingNewExact(w.line, a, book, w.stage.cursor, since, end);
    hide NothingNew, LineOk, ChainFrom;
  }

  lemma PageKeeps(w: Watch, issued: Book, book: Book, a: Answer, snapshot: Snapshot, limit: nat, since: nat)
    requires ValidBook(book) && LineOk(w.line, book, since) && ReadOk(w.line, w.stage, issued)
    requires w.stage.Reading? && !w.closed && PageShown(issued, book, w.stage.cursor, a, snapshot, limit)
    ensures PageAdds(w.line, OnPage(w, a), book, since)
  {
    hide PageShown, LineOk, PageAdds, OnPage, NewEvents, NothingNew, FromCursor, Numbered, ChainFrom, ValidBook;
    PageEvents(issued, book, w.stage.cursor, a, snapshot, limit);
    if a.events != [] {
      var c := w.stage.cursor;
      NewEventsExact(w.line, a, book, c, since);
      FullPageKeeps(w, book, a, NewEvents(w.line, a, a.events), Push(a.history, c, c + |a.events|, a.events), since);
    } else {
      EmptyPageKeeps(w, book, a, since, |snapshot.log|);
    }
  }

  // ---- Every step keeps the invariant --------------------------------------------------------------

  lemma LinePushed(line: Line, book: Book, since: nat)
    requires LineOk(line, book, since)
    ensures line.sent != [] ==> var p := line.sent[|line.sent| - 1]; p.to <= |LogOf(book, p.history)|
  {
    if line.sent != [] {
      assert Exact(line.sent[|line.sent| - 1], book);
    }
  }

  /** Timers, flags and the pump's stage do not matter to what was pushed and what waits. */
  lemma SameWatchOk(w: Watch, w': Watch, book: Book, since: nat)
    requires WatchOk(w, book, since)
    requires w'.line == w.line && w'.queue == w.queue && w'.closed == w.closed
    ensures WatchOk(w', book, since)
  {
  }

  /** Starting a drain, or finding nothing to do, keeps everything. */
  lemma EnterDrainKeeps(w: Watch, book: Book, since: nat)
    requires WatchOk(w, book, since)
    ensures WatchOk(EnterDrain(w), book, since) && ReadOk(EnterDrain(w).line, EnterDrain(w).stage, book)
  {
    if w.catchUp {
      SameWatchOk(w, EnterDrain(w), book, since);
      LinePushed(w.line, book, since);
    } else {
      DrainQueueKeeps(w, book, since);
      SameWatchOk(DrainQueue(w), EnterDrain(w), book, since);
    }
  }

  lemma PumpOk(w: Watch, book: Book, issued: Book, since: nat)
    requires WatchOk(w, book, since) && (w.closed || ReadOk(w.line, w.stage, issued))
    ensures var w' := Pump(w);
      && WatchOk(w', book, since)
      && (w'.closed || ReadOk(w'.line, w'.stage, if w'.stage.Reading? && !w.stage.Reading? then book else issued))
  {
    if !w.closed {
      SameWatchOk(w, w.(dirty := true), book, since);
      SameWatchOk(w, w.(dirty := false), book, since);
      EnterDrainKeeps(w.(dirty := false), book, since);
    }
  }

  lemma LoopOk(w: Watch, book: Book, issued: Book, since: nat)
    requires WatchOk(w, book, since) && w.stage.Drained?
    ensures var w' := OnDrained(w);
      WatchOk(w', book, since) && ReadOk(w'.line, w'.stage, book)
  {
    SameWatchOk(w, w.(stage := Idle), book, since);
    SameWatchOk(w, w.(dirty := false), book, since);
    EnterDrainKeeps(w.(dirty := false), book, since);
  }

  lemma GrowKeeps(s: Session, later: Book, since: nat)
    requires Inv(s, since) && ValidBook(later) && Grows(s.book, later)
    ensures Inv(Apply(s, Grow(later)), since)
  {
    forall i | 0 <= i < |s.w.line.sent| ensures Exact(s.w.line.sent[i], later) {
      GrownExact(s.w.line.sent[i], s.book, later);
    }
    forall i | 0 <= i < |s.w.queue| ensures Known(s.w.queue[i], later) {
      GrownKnown(s.w.queue[i], s.book, later);
    }
    forall h <- s.issued ensures LogOf(s.issued, h) <= LogOf(later, h) {
      assert LogOf(s.issued, h) <= LogOf(s.book, h);
      if h in s.book {
        assert LogOf(s.book, h) <= LogOf(later, h);
      }
    }
  }

  lemma ArriveKeeps(s: Session, live: Live, since: nat)
    requires Inv(s, since) && Enabled(s, Arrive(live))
    ensures Inv(Apply(s, Arrive(live)), since)
  {
  }

  lemma PumpKeeps(s: Session, step: Step, since: nat)
    requires Inv(s, since) && Enabled(s, step) && (step.FlushTimer? || step.StartTimer? || step.Loop?)
    ensures Inv(Apply(s, step), since)
  {
    match step
    case FlushTimer =>
      SameWatchOk(s.w, s.w.(flushArmed := false), s.book, since);
      PumpOk(s.w.(flushArmed := false), s.book, s.issued, since);
    case StartTimer =>
      SameWatchOk(s.w, s.w.(startArmed := false), s.book, since);
      PumpOk(s.w.(startArmed := false), s.book, s.issued, since);
    case Loop =>
      LoopOk(s.w, s.book, s.issued, since);
  }

  lemma PageStepKeeps(s: Session, step: Step, since: nat)
    requires Inv(s, since) && Enabled(s, step) && step.Page?
    ensures Inv(Apply(s, step), since)
  {
    if !s.w.closed {
      PageKeeps(s.w, s.issued, s.book, step.answer, step.snapshot, step.limit, since);
    }
  }

  lemma ResumeKeeps(s: Session, step: Step, since: nat)
    requires Inv(s, since) && Enabled(s, step) && (step.Resume? || step.ReadFailed?)
    ensures Inv(Apply(s, step), since)
  {
    if step.Resume? && !s.w.closed {
      var w := s.w.(repairTried := true);
      SameWatchOk(s.w, w, s.book, since);
      DrainQueueKeeps(w, s.book, since);
      SameWatchOk(DrainQueue(w), Apply(s, step).w, s.book, since);
    }
  }

  /** Whatever happens next, the invariant holds on. */
  lemma StepKeeps(s: Session, step: Step, since: nat)
    requires Inv(s, since) && Enabled(s, step)
    ensures Inv(Apply(s, step), since)
  {
    match step
    case Grow(later) => GrowKeeps(s, later, since);
    case Arrive(live) => ArriveKeeps(s, live, since);
    case Page(_, _, _) => PageStepKeeps(s, step, since);
    case Resume => ResumeKeeps(s, step, since);
    case ReadFailed => ResumeKeeps(s, step, since);
    case Unwatch =>
    case _ => PumpKeeps(s, step, since);
  }

  // ---- Runs --------------------------------------------------------------------------------------

  /** `steps` lead from `s` to `t`. */
  ghost predicate RunsTo(s: Session, steps: seq<Step>, t: Session)
    decreases steps
  {
    if steps == [] then s == t else Enabled(s, steps[0]) && RunsTo(Apply(s, steps[0]), steps[1..], t)
  }

  ghost predicate Reachable(book: Book, since: nat, steps: seq<Step>, s: Session) {
    ValidBook(book) && RunsTo(Session(Opened(since), book, book, []), steps, s)
  }

  lemma {:induction false} RunKeeps(s: Session, steps: seq<Step>, t: Session, since: nat)
    requires Inv(s, since) && RunsTo(s, steps, t)
    ensures Inv(t, since)
    decreases steps
  {
    if steps != [] {
      StepKeeps(s, steps[0], since);
      RunKeeps(Apply(s, steps[0]), steps[1..], t, since);
    }
  }

  lemma {:induction false} RunGrows(s: Session, steps: seq<Step>, t: Session)
    requires RunsTo(s, steps, t)
    ensures Grows(s.book, t.book)
    decreases steps
  {
    if steps != [] {
      var u := Apply(s, steps[0]);
      RunGrows(u, steps[1..], t);
      forall h <- s.book ensures LogOf(s.book, h) <= LogOf(t.book, h) {
        assert LogOf(s.book, h) <= LogOf(u.book, h);
        if h in u.book {
          assert LogOf(u.book, h) <= LogOf(t.book, h);
        }
      }
    }
  }
}
