/** When a drain drops an event the node was never shown, and a run in which it does. */
module WatchDrops {
  import opened Options
  import opened Mapper
  import opened EventLog
  import opened WatchProtocol
  import opened WatchSafety
  import opened WatchRuns
  import opened WatchEvents

  // ---- The queue's first run -----------------------------------------------------------------------------

  /** How many events the queue starts with before another history comes. */
  function FirstRun(queue: seq<Live>): (f: nat)
    ensures f <= |queue| && (queue != [] ==> f > 0)
    ensures forall i :: 0 <= i < f ==> queue[i].history == queue[0].history
    ensures f < |queue| ==> queue[f].history != queue[0].history
  {
    if queue == [] then 0
    else if |queue| > 1 && queue[1].history == queue[0].history then 1 + FirstRun(queue[1..])
    else 1
  }

  lemma {:induction false} OneHistoryRuns(events: seq<Live>)
    requires OneHistory(events)
    ensures RunsOf(events) == Runs([], events)
  {
    if events != [] {
      var n := |events| - 1;
      OneHistoryRuns(events[..n]);
      assert events == events[..n] + [events[n]];
      if n == 0 {
        OneRun(events[0]);
      }
    }
  }

  lemma AddBehind(head: seq<Live>, runs: Runs, live: Live)
    requires runs.growing != []
    ensures var next := AddToRuns(runs, live);
      AddToRuns(Runs(head + runs.sorted, runs.growing), live) == Runs(head + next.sorted, next.growing)
  {
    hide SortBySeq;
    assert head + runs.sorted + SortBySeq(runs.growing) == head + (runs.sorted + SortBySeq(runs.growing));
  }

  lemma FirstBehind(a: seq<Live>, live: Live)
    requires a != [] && OneHistory(a) && live.history != a[0].history
    ensures AddToRuns(RunsOf(a), live) == Runs(SortBySeq(a) + RunsOf([live]).sorted, RunsOf([live]).growing)
  {
    OneHistoryRuns(a);
    OneRun(live);
    hide SortBySeq;
    assert SortBySeq(a) + [] == SortBySeq(a) == [] + SortBySeq(a);
  }

  /** Events that start with another history than the run `a` are sorted apart from it. */
  lemma {:induction false} RunsBehind(a: seq<Live>, b: seq<Live>)
    requires a != [] && OneHistory(a) && b != [] && b[0].history != a[0].history
    ensures RunsOf(a + b) == Runs(SortBySeq(a) + RunsOf(b).sorted, RunsOf(b).growing)
  {
    var n := |b| - 1;
    assert (a + b)[..|a + b| - 1] == a + b[..n] && (a + b)[|a + b| - 1] == b[n];
    if n == 0 {
      FirstBehind(a, b[0]);
      assert b == [b[0]] && a + b[..0] == a;
    } else {
      RunsBehind(a, b[..n]);
      RunsAreOk(b[..n]);
      hide SortBySeq, AddToRuns;
      AddBehind(SortBySeq(a), RunsOf(b[..n]), b[n]);
    }
  }

  lemma NothingSorted()
    ensures SortWithinHistories([]) == []
  {
  }

  /** Sorting leaves the first run in front: sorted by seq, and followed by the rest, sorted. */
  lemma SortedFirstRun(queue: seq<Live>)
    requires queue != []
    ensures var f := FirstRun(queue);
      SortWithinHistories(queue) == SortBySeq(queue[..f]) + SortWithinHistories(queue[f..])
  {
    var f := FirstRun(queue);
    hide SortBySeq;
    assert queue == queue[..f] + queue[f..];
    if f == |queue| {
      OneHistoryRuns(queue);
      assert queue[..f] == queue && queue[f..] == [];
      assert SortWithinHistories([]) == [] by { NothingSorted(); }
      assert [] + SortBySeq(queue) == SortBySeq(queue) + [];
    } else {
      RunsBehind(queue[..f], queue[f..]);
      var runs := RunsOf(queue[f..]);
      assert SortBySeq(queue[..f]) + runs.sorted + SortBySeq(runs.growing)
          == SortBySeq(queue[..f]) + (runs.sorted + SortBySeq(runs.growing));
    }
  }

  // ---- What the drain drops --------------------------------------------------------------------------------

  /** How many events a drain skips before it gathers anything: those at or below the position. */
  function Skipped(line: Line, queued: seq<Live>): (m: nat)
    ensures m <= |queued|
    ensures forall i :: 0 <= i < m ==> AtOrBelow(line, queued[i])
    ensures m < |queued| ==> !AtOrBelow(line, queued[m])
  {
    if queued == [] || !AtOrBelow(line, queued[0]) then 0 else 1 + Skipped(line, queued[1..])
  }

  lemma {:induction false} SkippedChangesNothing(line: Line, queued: seq<Live>, repairTried: bool)
    ensures var m := Skipped(line, queued);
      DrainLoop(line, queued, [], repairTried) == DrainLoop(line, queued[m..], [], repairTried)
  {
    var m := Skipped(line, queued);
    if m > 0 {
      SkippedChangesNothing(line, queued[1..], repairTried);
      assert queued[m..] == queued[1..][m - 1..];
      assert Take(line, [], queued[0], repairTried) == Next(line, []);
    }
  }

  /** The first event a drain does not skip is gathered, unless it waits for a repair. */
  lemma FirstGathered(line: Line, live: Live, repairTried: bool)
    requires !AtOrBelow(line, live)
    ensures var t := Take(line, [], live, repairTried); t.Next? ==> t.run == [live] && t.line.sent == line.sent
  {
    assert [] + [live] == [live];
  }

  /** Once a drain gathers, every event it still meets is carried by a push or left for after a repair. */
  lemma GatheredCovers(line: Line, queued: seq<Live>, repairTried: bool, book: Book, voice: History, x: Live)
    requires Ready(line, [], book, voice) && AllKnown(queued, book) && OneVoice(line, queued, voice)
    requires SortedWithin(queued) && x in queued && !AtOrBelow(line, queued[0])
    ensures var d := DrainLoop(line, queued, [], repairTried); Held(d.line.sent, |line.sent|, x) || x in d.left
  {
    var live, rest := queued[0], queued[1..];
    var t := Take(line, [], live, repairTried);
    FirstGathered(line, live, repairTried);
    TakeReady(line, [], live, repairTried, book, voice);
    TakeVoice(line, [], live, repairTried, rest, voice);
    assert forall i :: 0 <= i < |rest| ==> rest[i] == queued[i + 1];
    hide Take, Ready, Known;
    if t.Next? {
      var from := t.line.(toSeq := None);
      if x == live {
        assert [live][0] == x;
        DrainLoopKeepsCovered(from, t.line, rest, t.run, repairTried, book, voice, x);
      } else {
        assert x in rest;
        DrainLoopCovers(from, t.line, rest, t.run, Some(live), repairTried, book, voice, x);
      }
    }
  }

  lemma FlushCarriesRun(line: Line, run: seq<Live>, book: Book, k: nat, x: Live)
    requires RunOk(line, run, book) && k <= |line.sent| && !Held(line.sent, k, x) && !InRun(run, x)
    ensures !Held(Flush(line, run).sent, k, x)
  {
    if run != [] {
      FlushAdds(line, run, book);
      var sent, from := Flush(line, run).sent, run[0].event.seqNo;
      assert forall n :: 0 <= n < |run| ==> run[n].history == run[0].history && run[n].event.seqNo == from + n;
      var n := x.event.seqNo - from;
      assert 0 <= n < |run| ==> run[n].event.seqNo == x.event.seqNo;
      forall i | k <= i < |sent| ensures !Carries(sent[i], x) {
        assert i < |line.sent| ==> sent[i] == line.sent[i];
      }
    }
  }

  lemma TakeRunWithout(line: Line, run: seq<Live>, live: Live, repairTried: bool, x: Live)
    requires !InRun(run, x) && !(live.history == x.history && live.event.seqNo == x.event.seqNo)
    ensures var t := Take(line, run, live, repairTried);
      (t.Next? ==> !InRun(t.run, x)) && (t.line.sent == line.sent || t.line.sent == Flush(line, run).sent)
  {
  }

  lemma SameSeqSameEvent(x: Live, y: Live, book: Book)
    requires ValidBook(book) && Known(x, book) && Known(y, book)
    ensures x.history == y.history && x.event.seqNo == y.event.seqNo ==> x == y
  {
  }

  /** A push carries only what was gathered: an event that is not in the queue is not carried. */
  lemma {:induction false} OnlyQueuedCarried(
      line: Line, queued: seq<Live>, run: seq<Live>, repairTried: bool, book: Book, voice: History, k: nat, x: Live)
    requires Ready(line, run, book, voice) && AllKnown(queued, book) && OneVoice(line, queued, voice) && Known(x, book)
    requires k <= |line.sent| && !Held(line.sent, k, x) && !InRun(run, x) && x !in queued
    ensures !Held(DrainLoop(line, queued, run, repairTried).line.sent, k, x)
    decreases queued
  {
    if queued == [] {
      FlushCarriesRun(line, run, book, k, x);
    } else {
      var live, rest := queued[0], queued[1..];
      var t := Take(line, run, live, repairTried);
      FlushCarriesRun(line, run, book, k, x);
      TakeReady(line, run, live, repairTried, book, voice);
      TakeVoice(line, run, live, repairTried, rest, voice);
      SameSeqSameEvent(live, x, book);
      if t.Next? {
        TakeRunWithout(line, run, live, repairTried, x);
        OnlyQueuedCarried(t.line, rest, t.run, repairTried, book, voice, k, x);
      }
    }
  }

  /** A drain passes over an event without a word exactly when it skips every copy of it. */
  lemma DrainSkips(line: Line, queue: seq<Live>, repairTried: bool, book: Book, voice: History, x: Live)
    requires var sorted := SortWithinHistories(queue);
      Ready(line, [], book, voice) && AllKnown(sorted, book) && OneVoice(line, sorted, voice)
    requires x in queue && Known(x, book)
    ensures var sorted := SortWithinHistories(queue);
      var d := DrainLoop(line, sorted, [], repairTried);
      (Held(d.line.sent, |line.sent|, x) || x in d.left) <==> x in sorted[Skipped(line, sorted)..]
  {
    hide SortWithinHistories;
    var sorted := SortWithinHistories(queue);
    var m := Skipped(line, sorted);
    var rest := sorted[m..];
    SortWithinSorts(queue);
    SkippedChangesNothing(line, sorted, repairTried);
    assert forall i :: 0 <= i < |rest| ==> rest[i] == sorted[m + i];
    if x in rest {
      GatheredCovers(line, rest, repairTried, book, voice, x);
    } else {
      OnlyQueuedCarried(line, rest, [], repairTried, book, voice, |line.sent|, x);
      LeftIsQueued(line, rest, [], repairTried);
    }
  }

  /** A copy behind an event of another history is not skipped. */
  lemma LaterRunIsTaken(line: Line, a: seq<Live>, b: seq<Live>, x: Live)
    requires a != [] && b != [] && a[0].history != b[0].history && x in b && line.history.Some?
    ensures x in (a + b)[Skipped(line, a + b)..]
  {
    var m, j := Skipped(line, a + b), 0;
    assert (a + b)[|a|] == b[0] && (a + b)[0] == a[0];
    j :| 0 <= j < |b| && b[j] == x;
    assert (a + b)[m..][|a| + j - m] == x;
  }

  lemma {:induction false} RunAscends(run: seq<Live>, i: nat, j: nat)
    requires SortedRun(run) && i <= j < |run|
    ensures run[i].event.seqNo <= run[j].event.seqNo
  {
    if i < j {
      RunAscends(run, i, j - 1);
    }
  }

  /** In the first run everything in front of an event at or below the position is skipped with it. */
  lemma FirstRunIsSkipped(line: Line, a: seq<Live>, b: seq<Live>, x: Live)
    requires SortedRun(a) && AtOrBelow(line, x) && x !in b && forall i :: 0 <= i < |a| ==> a[i].history == x.history
    ensures x !in (a + b)[Skipped(line, a + b)..]
  {
    var sorted, m := a + b, Skipped(line, a + b);
    forall j | m <= j < |sorted| ensures sorted[j] != x {
      if j < |a| {
        RunAscends(a, m, j);
        assert sorted[m] == a[m] && sorted[j] == a[j];
      } else {
        assert sorted[j] == b[j - |a|];
      }
    }
  }

  /** An event at or below the position is skipped, copies and all, exactly when it stands in the first run only. */
  lemma SkippedIsFirstRun(line: Line, queue: seq<Live>, x: Live)
    requires x in queue && AtOrBelow(line, x)
    requires line.history.None? ==> forall i :: 0 <= i < |queue| ==> queue[i].history == queue[0].history
    ensures var sorted := SortWithinHistories(queue);
      x in sorted[Skipped(line, sorted)..] <==> x in queue[FirstRun(queue)..]
  {
    var f := FirstRun(queue);
    var first, rest := queue[..f], queue[f..];
    assert queue == first + rest;
    hide SortWithinHistories, SortBySeq, Skipped, AtOrBelow, FirstRun;
    var (a, b) := (SortBySeq(first), SortWithinHistories(rest));
    SortedFirstRun(queue);
    SortSorts(first);
    SortedRunHistory(first);
    SortWithinKeeps(rest);
    InSorted(b, rest, x);
    if x in rest {
      SortWithinSorts(rest);
      LaterRunIsTaken(line, a, b, x);
    } else {
      FirstRunIsSkipped(line, a, b, x);
    }
  }

  lemma QueuedKnown(queue: seq<Live>, book: Book, x: Live)
    requires AllKnown(queue, book) && x in queue
    ensures Known(x, book)
  {
  }

  lemma DrainQueueIs(w: Watch)
    requires w.queue != []
    ensures var d := DrainLoop(w.line, SortWithinHistories(w.queue), [], w.repairTried);
      DrainQueue(w).line == d.line && DrainQueue(w).queue == d.left
  {
  }

  lemma QueueDrainSkips(w: Watch, book: Book, since: nat, x: Live)
    requires WatchOk(w, book, since) && x in w.queue
    ensures var (w', sorted) := (DrainQueue(w), SortWithinHistories(w.queue));
      && x in sorted
      && ((Held(w'.line.sent, |w.line.sent|, x) || x in w'.queue) <==> x in sorted[Skipped(w.line, sorted)..])
  {
    DrainReady(w, book, since);
    QueuedKnown(w.queue, book, x);
    DrainQueueIs(w);
    hide *;
    SortWithinKeeps(w.queue);
    InSorted(SortWithinHistories(w.queue), w.queue, x);
    DrainSkips(w.line, w.queue, w.repairTried, book, w.queue[0].history, x);
  }

  lemma SkippedIsOld(line: Line, sorted: seq<Live>, x: Live)
    requires x in sorted && x !in sorted[Skipped(line, sorted)..]
    ensures AtOrBelow(line, x)
  {
    var m := Skipped(line, sorted);
    assert sorted == sorted[..m] + sorted[m..];
  }

  /**
   * An event leaves the queue in a drain without being carried by a push or lying behind an earlier one
   * exactly when nothing was pushed before, it lies below the position the watch started from, and no
   * copy of it waits behind an event of another history. The node is told nothing of it.
   */
  lemma DroppedUnseen(w: Watch, book: Book, since: nat, x: Live)
    requires WatchOk(w, book, since) && x in w.queue
    ensures var w' := DrainQueue(w);
      (x !in w'.queue && !Held(w'.line.sent, |w.line.sent|, x) && !Behind(w.line, x)) <==>
      (w.line.sent == [] && AtOrBelow(w.line, x) && x !in w.queue[FirstRun(w.queue)..])
  {
    hide SortWithinHistories, DrainQueue, Held, AtOrBelow, AllKnown, Skipped, FirstRun;
    var sorted := SortWithinHistories(w.queue);
    QueueDrainSkips(w, book, since, x);
    if x !in sorted[Skipped(w.line, sorted)..] {
      SkippedIsOld(w.line, sorted, x);
    }
    if AtOrBelow(w.line, x) {
      SkippedIsFirstRun(w.line, w.queue, x);
      if w.line.sent != [] {
        OldIsBehind(w.line, since, x);
      }
    }
  }

  // ---- A run that loses an event ---------------------------------------------------------------------------

  /** A watch from position 2 that has pushed nothing and has no history yet. */
  function Unsettled(repairTried: bool, queue: seq<Live>, flushArmed: bool, stage: Stage): Watch {
    Watch(Line(None, Some(2), []), false, false, repairTried, queue, flushArmed, false, false, stage)
  }

  /** Its first read fails. */
  lemma FirstReadFails()
    ensures OnStartTimer(Opened(2)) == Unsettled(false, [], false, Reading(2))
    ensures OnReadFailed(Unsettled(false, [], false, Reading(2))) == Unsettled(false, [], false, CaughtUp)
    ensures OnCaughtUp(Unsettled(false, [], false, CaughtUp)) == Unsettled(true, [], false, Drained)
    ensures OnDrained(Unsettled(true, [], false, Drained)) == Unsettled(true, [], false, Idle)
  {
  }

  /** An event numbered below 2 is queued, drained and dropped. */
  lemma OldEventDrains(x: Live)
    requires x.event.seqNo < 2
    ensures OnSessionEvent(Unsettled(true, [], false, Idle), x) == Unsettled(true, [x], true, Idle)
    ensures OnFlushTimer(Unsettled(true, [x], true, Idle)) == Unsettled(false, [], false, Drained)
    ensures OnDrained(Unsettled(false, [], false, Drained)) == Unsettled(false, [], false, Idle)
  {
    var line := Line(None, Some(2), []);
    OneRun(x);
    hide SortWithinHistories;
    assert [] + [x] == [x] && [x][1..] == [];
    assert DrainLoop(line, [x], [], true) == DrainLoop(line, [], [], true) == Drain(line, []);
  }

  lemma OneStep(s: Session, step: Step, more: seq<Step>, u: Session)
    requires Enabled(s, step) && RunsTo(Apply(s, step), more, u)
    ensures RunsTo(s, [step] + more, u)
  {
    assert ([step] + more)[1..] == more;
  }

  lemma FreshTimer()
    ensures Opened(2).startArmed && Opened(2).stage.Idle?
  {
  }

  /** From its failed first read on. */
  lemma FailedReadRun(book: Book, more: seq<Step>, s: Session)
    requires RunsTo(Session(Unsettled(true, [], false, Idle), book, book, []), more, s)
    ensures RunsTo(Session(Opened(2), book, book, []), [StartTimer] + ([ReadFailed] + ([Resume] + ([Loop] + more))), s)
  {
    FirstReadFails();
    FreshTimer();
    hide OnStartTimer, OnReadFailed, OnCaughtUp, OnDrained, OnSessionEvent, OnFlushTimer, Opened, RunsTo;
    var rest := [Resume] + ([Loop] + more);
    OneStep(Session(Unsettled(true, [], false, Drained), book, book, []), Loop, more, s);
    OneStep(Session(Unsettled(false, [], false, CaughtUp), book, book, []), Resume, [Loop] + more, s);
    OneStep(Session(Unsettled(false, [], false, Reading(2)), book, book, []), ReadFailed, rest, s);
    OneStep(Session(Opened(2), book, book, []), StartTimer, [ReadFailed] + rest, s);
  }

  lemma NoSteps(s: Session)
    ensures RunsTo(s, [], s)
  {
  }

  /** The event is announced, drained and dropped. */
  lemma OldEventRun(book: Book, x: Live, s: Session)
    requires Known(x, book) && x.event.seqNo < 2 && s == Session(Unsettled(false, [], false, Idle), book, book, [x])
    ensures RunsTo(Session(Unsettled(true, [], false, Idle), book, book, []),
      [Arrive(x)] + ([FlushTimer] + ([Loop] + [])), s)
  {
    OldEventDrains(x);
    NoSteps(s);
    hide OnStartTimer, OnReadFailed, OnCaughtUp, OnDrained, OnSessionEvent, OnFlushTimer, Opened, RunsTo;
    assert [] + [x] == [x];
    OneStep(Session(Unsettled(false, [], false, Drained), book, book, [x]), Loop, [], s);
    OneStep(Session(Unsettled(true, [x], true, Idle), book, book, [x]), FlushTimer, [Loop] + [], s);
    OneStep(Session(Unsettled(true, [], false, Idle), book, book, []), Arrive(x), [FlushTimer] + ([Loop] + []), s);
  }

  /**
   * A node watches from position 2 when the log has been replaced by one with a single event. The first
   * read fails; the event is then announced, drained and dropped: the watch is open and at rest, has
   * pushed nothing and queues nothing.
   */
  lemma AnnouncedButNeverShown() returns (book: Book, steps: seq<Step>, s: Session, x: Live)
    ensures book == map["b" := [Event(0, 0, OtherEvent)]] && x == Live(Event(0, 0, OtherEvent), "b")
    ensures Reachable(book, 2, steps, s) && s.book == book && x in s.arrived
    ensures !s.w.closed && s.w.stage.Idle? && !s.w.flushArmed && !s.w.startArmed && !s.w.catchUp
    ensures s.w.queue == [] && s.w.line == Line(None, Some(2), []) && !Behind(s.w.line, x)
  {
    x := Live(Event(0, 0, OtherEvent), "b");
    book := map["b" := [x.event]];
    s := Session(Unsettled(false, [], false, Idle), book, book, [x]);
    var late := [Arrive(x)] + ([FlushTimer] + ([Loop] + []));
    steps := [StartTimer] + ([ReadFailed] + ([Resume] + ([Loop] + late)));
    OldEventRun(book, x, s);
    FailedReadRun(book, late, s);
    hide RunsTo;
  }
}
