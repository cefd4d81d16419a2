/** What becomes of one event: once it is queued or behind a push, no step loses it. */
module WatchEvents {
  import opened EventLog
  import opened WatchProtocol
  import opened WatchSafety
  import opened WatchRuns

  // ---- Queued or behind a push -------------------------------------------------------------------------

  lemma HeldIsBehind(line: Line, k: nat, x: Live)
    requires Held(line.sent, k, x)
    ensures Behind(line, x)
  {
    var i :| k <= i < |line.sent| && Carries(line.sent[i], x);
    assert line.sent[i].history == x.history && x.event.seqNo < line.sent[i].to;
  }

  /** Once something was pushed, an event at or below the position lies behind the last push. */
  lemma OldIsBehind(line: Line, since: nat, x: Live)
    requires Linked(line, [], StartOf(since), true) && AtOrBelow(line, x) && (since == 0 || line.sent != [])
    ensures Behind(line, x)
  {
    var last := line.sent[|line.sent| - 1];
    assert last.history == x.history && x.event.seqNo < last.to;
  }

  lemma BehindStays(line: Line, later: Line, x: Live)
    requires line.sent <= later.sent && Behind(line, x)
    ensures Behind(later, x)
  {
    var i :| 0 <= i < |line.sent| && line.sent[i].history == x.history && x.event.seqNo < line.sent[i].to;
    assert later.sent[i] == line.sent[i];
  }

  /** The event is queued or behind a push; a watch with a position to start from has pushed something. */
  ghost predicate Kept(w: Watch, since: nat, x: Live) {
    w.closed || ((x in w.queue || Behind(w.line, x)) && (since == 0 || w.line.sent != []))
  }

  lemma DrainKeepsEvent(w: Watch, book: Book, since: nat, x: Live)
    requires WatchOk(w, book, since) && Kept(w, since, x)
    ensures Kept(DrainQueue(w), since, x)
  {
    hide AllKnown, ValidBook, QueueVoice, Behind;
    var w' := DrainQueue(w);
    DrainQueueLeft(w, book);
    if !w.closed && Behind(w.line, x) {
      BehindStays(w.line, w'.line, x);
    } else if !w.closed {
      DrainQueueCovers(w, book, since, x);
      if Held(w'.line.sent, |w.line.sent|, x) {
        HeldIsBehind(w'.line, |w.line.sent|, x);
      } else if AtOrBelow(w.line, x) {
        OldIsBehind(w.line, since, x);
        BehindStays(w.line, w'.line, x);
      }
    }
  }

  lemma SameKept(w: Watch, w': Watch, since: nat, x: Live)
    requires Kept(w, since, x) && w'.queue == w.queue && w.line.sent <= w'.line.sent && (w.closed ==> w'.closed)
    ensures Kept(w', since, x)
  {
    if !w.closed && Behind(w.line, x) {
      BehindStays(w.line, w'.line, x);
    }
  }

  lemma EnterDrainKeepsEvent(w: Watch, book: Book, since: nat, x: Live)
    requires WatchOk(w, book, since) && Kept(w, since, x)
    ensures Kept(EnterDrain(w), since, x)
  {
    hide WatchOk, Kept, DrainQueue;
    if w.catchUp {
      SameKept(w, EnterDrain(w), since, x);
    } else {
      DrainKeepsEvent(w, book, since, x);
      SameKept(DrainQueue(w), EnterDrain(w), since, x);
    }
  }

  lemma PumpKeepsEvent(w: Watch, book: Book, since: nat, x: Live)
    requires WatchOk(w, book, since) && Kept(w, since, x)
    ensures Kept(Pump(w), since, x)
  {
    SameWatchOk(w, w.(dirty := false), book, since);
    hide WatchOk, EnterDrain, Kept;
    SameKept(w, w.(dirty := true), since, x);
    SameKept(w, w.(dirty := false), since, x);
    EnterDrainKeepsEvent(w.(dirty := false), book, since, x);
  }

  lemma LoopKeepsEvent(w: Watch, book: Book, since: nat, x: Live)
    requires WatchOk(w, book, since) && Kept(w, since, x) && w.stage.Drained?
    ensures Kept(OnDrained(w), since, x)
  {
    SameWatchOk(w, w.(dirty := false), book, since);
    hide WatchOk, EnterDrain, Kept;
    SameKept(w, w.(stage := Idle), since, x);
    SameKept(w, w.(dirty := false), since, x);
    EnterDrainKeepsEvent(w.(dirty := false), book, since, x);
  }

  lemma ResumeKeepsEvent(w: Watch, book: Book, since: nat, x: Live)
    requires WatchOk(w, book, since) && Kept(w, since, x) && w.stage.CaughtUp?
    ensures Kept(OnCaughtUp(w), since, x)
  {
    var u := w.(repairTried := true);
    SameWatchOk(w, u, book, since);
    hide WatchOk, DrainQueue, Kept;
    SameKept(w, u, since, x);
    SameKept(u, u.(stage := Drained), since, x);
    DrainKeepsEvent(u, book, since, x);
    SameKept(DrainQueue(u), DrainQueue(u).(stage := Drained), since, x);
  }

  lemma DrainSent(w: Watch)
    ensures w.line.sent <= DrainQueue(w).line.sent
  {
    LeftIsQueued(w.line, SortWithinHistories(w.queue), [], w.repairTried);
  }

  lemma PumpSent(w: Watch)
    ensures w.line.sent <= Pump(w).line.sent
    ensures w.stage.Drained? ==> w.line.sent <= OnDrained(w).line.sent
    ensures w.stage.CaughtUp? ==> w.line.sent <= OnCaughtUp(w).line.sent
  {
    hide DrainQueue;
    DrainSent(w.(dirty := false));
    DrainSent(w.(repairTried := true));
  }

  lemma PageSent(w: Watch, page: Answer)
    requires w.stage.Reading?
    ensures w.line.sent <= OnPage(w, page).line.sent
  {
    hide FromCursor;
  }

  /** What was pushed stays pushed. */
  lemma StepSent(s: Session, step: Step)
    requires Enabled(s, step)
    ensures s.w.line.sent <= Apply(s, step).w.line.sent
  {
    hide Pump, OnDrained, OnCaughtUp, OnPage, PageShown, ValidBook, Grows, Known;
    match step
    case Page(answer, _, _) => PageSent(s.w, answer);
    case FlushTimer => PumpSent(s.w.(flushArmed := false));
    case StartTimer => PumpSent(s.w.(startArmed := false));
    case _ => PumpSent(s.w);
  }

  lemma TimerKeepsEvent(w: Watch, book: Book, since: nat, x: Live)
    requires WatchOk(w, book, since) && Kept(w, since, x)
    ensures Kept(OnFlushTimer(w), since, x) && Kept(OnStartTimer(w), since, x)
  {
    var v, u := w.(flushArmed := false), w.(startArmed := false);
    SameWatchOk(w, v, book, since);
    SameWatchOk(w, u, book, since);
    hide WatchOk, Pump, Kept;
    SameKept(w, v, since, x);
    SameKept(w, u, since, x);
    PumpKeepsEvent(v, book, since, x);
    PumpKeepsEvent(u, book, since, x);
  }

  lemma ClosedKeepsEvent(w: Watch, live: Live, since: nat, x: Live)
    requires Kept(w, since, x)
    ensures Kept(Close(w), since, x) && Kept(OnSessionEvent(w, live), since, x)
    ensures w.stage.Reading? ==> Kept(OnReadFailed(w), since, x)
  {
  }

  /** Whatever happens next, a kept event stays kept. */
  lemma StepKeepsEvent(s: Session, step: Step, since: nat, x: Live)
    requires Inv(s, since) && Enabled(s, step) && Kept(s.w, since, x)
    ensures Kept(Apply(s, step).w, since, x)
  {
    StepSent(s, step);
    hide WatchOk, ReadOk, Grows, PageShown, Kept;
    hide OnFlushTimer, OnStartTimer, OnCaughtUp, OnDrained, OnSessionEvent, Close;
    match step
    case Grow(_) =>
    case Arrive(live) => ClosedKeepsEvent(s.w, live, since, x);
    case Page(_, _, _) => SameKept(s.w, Apply(s, step).w, since, x);
    case Resume => ResumeKeepsEvent(s.w, s.book, since, x);
    case FlushTimer => TimerKeepsEvent(s.w, s.book, since, x);
    case StartTimer => TimerKeepsEvent(s.w, s.book, since, x);
    case Loop => LoopKeepsEvent(s.w, s.book, since, x);
    case ReadFailed => ClosedKeepsEvent(s.w, x, since, x);
    case Unwatch => ClosedKeepsEvent(s.w, x, since, x);
  }

  lemma ArrivedIsKept(s: Session, x: Live, since: nat)
    requires Inv(s, since) && Enabled(s, Arrive(x)) && (since == 0 || s.w.line.sent != [])
    ensures Kept(Apply(s, Arrive(x)).w, since, x)
  {
    assert !s.w.closed ==> Apply(s, Arrive(x)).w.queue[|s.w.queue|] == x;
  }
}
