/** What one drain and one catch-up page tell the node: exact slices, in order, losing nothing. */
module WatchSafety {
  import opened Options
  import opened Mapper
  import opened MapperLaws
  import opened EventLog
  import opened WatchProtocol

  // ---- The logs behind the watch ----------------------------------------------------------------

  /** The log of every history there is, so far. */
  type Book = map<History, seq<Event>>

  function LogOf(book: Book, h: History): seq<Event> { if h in book then book[h] else [] }

  ghost predicate ValidBook(book: Book) { forall h <- book :: Numbered(book[h], 0) }

  /** Logs only grow. */
  ghost predicate Grows(book: Book, later: Book) { forall h <- book :: LogOf(book, h) <= LogOf(later, h) }

  ghost predicate Known(live: Live, book: Book) {
    live.event.seqNo < |LogOf(book, live.history)| && LogOf(book, live.history)[live.event.seqNo] == live.event
  }

  ghost predicate AllKnown(events: seq<Live>, book: Book) { forall i :: 0 <= i < |events| ==> Known(events[i], book) }

  /** A push carries exactly the slice of the log it names. */
  ghost predicate Exact(p: Push, book: Book) {
    p.from <= p.to <= |LogOf(book, p.history)| && p.events == LogOf(book, p.history)[p.from..p.to]
  }

  ghost predicate AllExact(sent: seq<Push>, book: Book) { forall i :: 0 <= i < |sent| ==> Exact(sent[i], book) }

  lemma GrownExact(p: Push, book: Book, later: Book)
    requires Exact(p, book) && Grows(book, later)
    ensures Exact(p, later)
  {
    assert LogOf(book, p.history) <= LogOf(later, p.history);
  }

  lemma GrownKnown(live: Live, book: Book, later: Book)
    requires Known(live, book) && Grows(book, later)
    ensures Known(live, later)
  {
    assert LogOf(book, live.history) <= LogOf(later, live.history);
  }

  // ---- Sorting ----------------------------------------------------------------------------------

  /** Neighbours of one history come in seq order. */
  ghost predicate SortedWithin(events: seq<Live>) {
    forall i :: 0 < i < |events| && events[i - 1].history == events[i].history ==>
      events[i - 1].event.seqNo <= events[i].event.seqNo
  }

  ghost predicate SortedRun(run: seq<Live>) {
    forall i :: 0 < i < |run| ==> run[i - 1].event.seqNo <= run[i].event.seqNo
  }

  lemma {:induction false} InsertSorts(run: seq<Live>, live: Live)
    requires SortedRun(run)
    ensures var out := InsertLive(run, live);
      && SortedRun(out) && out != []
      && var keeps := run == [] || run[|run| - 1].event.seqNo <= live.event.seqNo;
      out[|out| - 1] == if keeps then live else run[|run| - 1]
  {
    if run != [] && run[|run| - 1].event.seqNo > live.event.seqNo {
      InsertSorts(run[..|run| - 1], live);
    }
  }

  lemma {:induction false} InsertKeeps(run: seq<Live>, live: Live)
    ensures multiset(InsertLive(run, live)) == multiset(run) + multiset{live}
  {
    if run != [] && run[|run| - 1].event.seqNo > live.event.seqNo {
      var n := |run| - 1;
      InsertKeeps(run[..n], live);
      assert run == run[..n] + [run[n]];
    }
  }

  lemma SplitElements<T>(s: seq<T>, n: nat)
    requires n <= |s|
    ensures multiset(s) == multiset(s[..n]) + multiset(s[n..])
  {
    assert s == s[..n] + s[n..];
  }

  lemma {:induction false} SortSorts(run: seq<Live>)
    ensures SortedRun(SortBySeq(run))
  {
    if run != [] {
      SortSorts(run[..|run| - 1]);
      InsertSorts(SortBySeq(run[..|run| - 1]), run[|run| - 1]);
    }
  }

  lemma {:induction false} SortKeeps(run: seq<Live>)
    ensures multiset(SortBySeq(run)) == multiset(run)
  {
    if run != [] {
      var n := |run| - 1;
      SortKeeps(run[..n]);
      InsertKeeps(SortBySeq(run[..n]), run[n]);
      SplitElements(run, n);
      assert run[n..] == [run[n]];
    }
  }

  lemma InSorted(a: seq<Live>, b: seq<Live>, x: Live)
    requires multiset(a) == multiset(b)
    ensures x in a <==> x in b
  {
    assert x in a <==> x in multiset(a);
    assert x in b <==> x in multiset(b);
  }

  ghost predicate OneHistory(run: seq<Live>) { forall i :: 0 <= i < |run| ==> run[i].history == run[0].history }

  /** A sorted run has the same length and history as before. */
  lemma SortedRunHistory(run: seq<Live>)
    requires run != [] && OneHistory(run)
    ensures var out := SortBySeq(run); |out| == |run| && forall i :: 0 <= i < |out| ==> out[i].history == run[0].history
  {
    var out := SortBySeq(run);
    SortKeeps(run);
    assert |out| == |multiset(out)| == |multiset(run)| == |run|;
    forall i | 0 <= i < |out| ensures out[i].history == run[0].history {
      InSorted(out, run, out[i]);
    }
  }

  /** The finished runs are in order and end with another history than the growing one. */
  ghost predicate RunsOk(runs: Runs) {
    && SortedWithin(runs.sorted) && runs.growing != [] && OneHistory(runs.growing)
    && (runs.sorted != [] ==> runs.sorted[|runs.sorted| - 1].history != runs.growing[0].history)
  }

  function FirstHistory(runs: Runs): History
    requires runs.growing != []
  {
    if runs.sorted != [] then runs.sorted[0].history else runs.growing[0].history
  }

  lemma JoinSorted(a: seq<Live>, b: seq<Live>)
    requires SortedWithin(a) && SortedRun(b)
    requires a != [] && b != [] ==> a[|a| - 1].history != b[0].history
    ensures SortedWithin(a + b)
  {
  }

  lemma FinishRun(runs: Runs)
    requires RunsOk(runs)
    ensures var out := runs.sorted + SortBySeq(runs.growing);
      && SortedWithin(out) && out != [] && out[0].history == FirstHistory(runs)
      && out[|out| - 1].history == runs.growing[0].history
  {
    SortSorts(runs.growing);
    SortedRunHistory(runs.growing);
    JoinSorted(runs.sorted, SortBySeq(runs.growing));
  }

  lemma OneRun(live: Live)
    ensures SortBySeq([live]) == [live] && RunsOf([live]) == Runs([], [live]) && SortWithinHistories([live]) == [live]
  {
    assert [live][..0] == [];
    assert SortBySeq([]) == [] && RunsOf([]) == Runs([], []);
  }

  lemma AddKeepsOk(runs: Runs, live: Live)
    requires RunsOk(runs)
    ensures RunsOk(AddToRuns(runs, live)) && FirstHistory(AddToRuns(runs, live)) == FirstHistory(runs)
  {
    if runs.growing[0].history != live.history {
      FinishRun(runs);
    }
  }

  lemma {:induction false} RunsAreOk(events: seq<Live>)
    requires events != []
    ensures RunsOk(RunsOf(events)) && FirstHistory(RunsOf(events)) == events[0].history
  {
    var n := |events| - 1;
    if n > 0 {
      RunsAreOk(events[..n]);
      AddKeepsOk(RunsOf(events[..n]), events[n]);
    } else {
      assert events == [events[0]];
      OneRun(events[0]);
    }
  }

  lemma {:induction false} RunsKeep(events: seq<Live>)
    ensures var runs := RunsOf(events); multiset(runs.sorted) + multiset(runs.growing) == multiset(events)
  {
    if events != [] {
      var n := |events| - 1;
      RunsKeep(events[..n]);
      SortKeeps(RunsOf(events[..n]).growing);
      SplitElements(events, n);
      assert events[n..] == [events[n]];
    }
  }

  /** Sorting the queue loses, invents and doubles no event. */
  lemma SortWithinKeeps(events: seq<Live>)
    ensures multiset(SortWithinHistories(events)) == multiset(events)
  {
    RunsKeep(events);
    SortKeeps(RunsOf(events).growing);
  }

  /** After sorting, neighbours of one history are in seq order; the first history stays first. */
  lemma SortWithinSorts(events: seq<Live>)
    requires events != []
    ensures var sorted := SortWithinHistories(events);
      SortedWithin(sorted) && sorted != [] && sorted[0].history == events[0].history
  {
    RunsAreOk(events);
    FinishRun(RunsOf(events));
  }

  /** The histories stand where they stood. */
  ghost predicate SameHistories(a: seq<Live>, b: seq<Live>) {
    |a| == |b| && forall i :: 0 <= i < |a| ==> a[i].history == b[i].history
  }

  lemma SortedSame(a: seq<Live>, run: seq<Live>, events: seq<Live>)
    requires SameHistories(a + run, events) && run != [] && OneHistory(run)
    ensures SameHistories(a + SortBySeq(run), events)
  {
    SortedRunHistory(run);
    forall i | 0 <= i < |events| ensures (a + SortBySeq(run))[i].history == events[i].history {
      assert (a + run)[i].history == events[i].history;
    }
  }

  lemma AddSame(runs: Runs, live: Live, events: seq<Live>)
    requires RunsOk(runs) && SameHistories(runs.sorted + runs.growing, events)
    ensures var more := AddToRuns(runs, live); SameHistories(more.sorted + more.growing, events + [live])
  {
    SortedSame(runs.sorted, runs.growing, events);
    hide SortBySeq, RunsOk;
    assert runs.sorted + (runs.growing + [live]) == runs.sorted + runs.growing + [live];
  }

  lemma OneMoreRun(events: seq<Live>)
    requires events != []
    ensures RunsOf(events) == AddToRuns(RunsOf(events[..|events| - 1]), events[|events| - 1])
  {
  }

  lemma {:induction false} RunsSame(events: seq<Live>)
    requires events != []
    ensures SameHistories(RunsOf(events).sorted + RunsOf(events).growing, events)
  {
    hide RunsOf, SortBySeq, AddToRuns;
    var n := |events| - 1;
    assert events[..n] + [events[n]] == events;
    if n > 0 {
      RunsSame(events[..n]);
      RunsAreOk(events[..n]);
      AddSame(RunsOf(events[..n]), events[n], events[..n]);
      OneMoreRun(events);
    } else {
      OneRun(events[0]);
    }
  }

  /** Sorting moves events only within the runs of one history: which history comes where stays as it was. */
  lemma SortKeepsPlaces(events: seq<Live>)
    ensures SameHistories(SortWithinHistories(events), events)
  {
    if events != [] {
      RunsSame(events);
      RunsAreOk(events);
      SortedSame(RunsOf(events).sorted, RunsOf(events).growing, events);
    } else {
      assert SortBySeq([]) == [] && RunsOf([]) == Runs([], []);
    }
  }

  // ---- One event of a drain ----------------------------------------------------------------------

  /** Gathered events are a run of one log, which continues what is pushed. */
  ghost predicate RunOk(line: Line, run: seq<Live>, book: Book) {
    run != [] ==>
      && (line.history.Some? ==> run[0].history == line.history.value)
      && (line.toSeq.Some? ==> run[0].event.seqNo == line.toSeq.value)
      && var (log, from) := (LogOf(book, run[0].history), run[0].event.seqNo);
         && from + |run| <= |log|
         && forall i :: 0 <= i < |run| ==>
           run[i] == Live(log[from + i], run[0].history) && log[from + i].seqNo == from + i
  }

  /** Before the first push of a watch settles the history, the events to push all come from one log. */
  ghost predicate OneVoice(line: Line, events: seq<Live>, voice: History) {
    line.history.None? ==> forall i :: 0 <= i < |events| ==> events[i].history == voice
  }

  lemma KnownSeq(live: Live, book: Book)
    requires ValidBook(book) && Known(live, book)
    ensures LogOf(book, live.history)[live.event.seqNo].seqNo == live.event.seqNo
  {
  }

  lemma StartRun(line: Line, live: Live, book: Book)
    requires ValidBook(book) && Known(live, book)
    requires line.history.Some? ==> line.history.value == live.history
    requires line.toSeq.None? || line.toSeq.value == live.event.seqNo
    ensures RunOk(line, [live], book)
  {
    KnownSeq(live, book);
  }

  lemma ExtendRun(line: Line, run: seq<Live>, live: Live, book: Book)
    requires ValidBook(book) && Known(live, book) && RunOk(line, run, book) && run != []
    requires run[0].history == live.history && live.event.seqNo == run[|run| - 1].event.seqNo + 1
    ensures RunOk(line, run + [live], book)
  {
    KnownSeq(live, book);
    assert run[|run| - 1] == Live(LogOf(book, run[0].history)[run[0].event.seqNo + |run| - 1], run[0].history);
  }

  lemma RunSlice(line: Line, run: seq<Live>, book: Book)
    requires RunOk(line, run, book) && run != []
    ensures var (log, from) := (LogOf(book, run[0].history), run[0].event.seqNo);
      && EventsOf(run) == log[from..from + |run|]
      && EventsOf(run)[0].seqNo == from
      && EventsOf(run)[|run| - 1].seqNo + 1 == from + |run|
  {
    var (log, from) := (LogOf(book, run[0].history), run[0].event.seqNo);
    assert forall i :: 0 <= i < |run| ==> EventsOf(run)[i] == run[i].event;
  }

  /** What `Flush` adds: one push with exactly the gathered slice. */
  lemma FlushAdds(line: Line, run: seq<Live>, book: Book)
    requires RunOk(line, run, book) && run != []
    ensures var (h, from) := (run[0].history, run[0].event.seqNo);
      && Flush(line, run) == Line(Some(h), Some(from + |run|),
                                  line.sent + [Push(h, from, from + |run|, LogOf(book, h)[from..from + |run|])])
      && from + |run| <= |LogOf(book, h)|
      && run[|run| - 1].event.seqNo == from + |run| - 1
  {
    RunSlice(line, run, book);
  }

  lemma FlushExact(line: Line, run: seq<Live>, book: Book)
    requires RunOk(line, run, book) && AllExact(line.sent, book)
    ensures AllExact(Flush(line, run).sent, book)
  {
    if run != [] {
      FlushAdds(line, run, book);
    }
  }

  /** What the loop over the queue relies on. */
  ghost predicate Ready(line: Line, run: seq<Live>, book: Book, voice: History) {
    ValidBook(book) && RunOk(line, run, book) && AllExact(line.sent, book) && OneVoice(line, run, voice)
  }

  lemma RunVoice(line: Line, run: seq<Live>, live: Live, book: Book, voice: History)
    requires Ready(line, run, book, voice) && OneVoice(line, [live], voice)
    requires !Turns(line, live) && run != []
    ensures run[0].history == live.history
  {
    assert line.history.None? ==> [live][0].history == voice && run[0].history == voice;
  }

  lemma TakeReady(line: Line, run: seq<Live>, live: Live, repairTried: bool, book: Book, voice: History)
    requires Ready(line, run, book, voice) && Known(live, book) && OneVoice(line, [live], voice)
    ensures var t := Take(line, run, live, repairTried);
      AllExact(t.line.sent, book) && (t.Next? ==> Ready(t.line, t.run, book, voice))
  {
    if Turns(line, live) {
      FlushExact(line, run, book);
      StartRun(Turn(line, run, live), live, book);
    } else if IsOld(Tail(line, run), live) {
    } else if !IsGap(Tail(line, run), live) {
      if run != [] {
        RunVoice(line, run, live, book, voice);
        ExtendRun(line, run, live, book);
        assert line.history.None? ==> [live][0].history == voice;
      } else {
        StartRun(line, live, book);
        assert run + [live] == [live];
      }
    } else {
      FlushExact(line, run, book);
      if run != [] {
        RunVoice(line, run, live, book, voice);
      }
      if repairTried {
        StartRun(Flush(line, run).(toSeq := None), live, book);
      }
    }
  }

  lemma TakeVoice(line: Line, run: seq<Live>, live: Live, repairTried: bool, rest: seq<Live>, voice: History)
    requires OneVoice(line, rest, voice)
    ensures OneVoice(Take(line, run, live, repairTried).line, rest, voice)
  {
  }

  /** Every push of a drain carries exactly the slice of the log it names. */
  lemma {:induction false} DrainLoopExact(line: Line, queued: seq<Live>, run: seq<Live>, repairTried: bool,
        book: Book, voice: History)
    requires Ready(line, run, book, voice) && AllKnown(queued, book) && OneVoice(line, queued, voice)
    ensures AllExact(DrainLoop(line, queued, run, repairTried).line.sent, book)
    decreases queued
  {
    if queued == [] {
      FlushExact(line, run, book);
    } else {
      TakeReady(line, run, queued[0], repairTried, book, voice);
      var t := Take(line, run, queued[0], repairTried);
      if t.Next? {
        TakeVoice(line, run, queued[0], repairTried, queued[1..], voice);
        DrainLoopExact(t.line, queued[1..], t.run, repairTried, book, voice);
      }
    }
  }

  // ---- Consecutive pushes --------------------------------------------------------------------------

  /** A push of the same history as the one before continues it, or skips ahead when skipping is allowed. */
  ghost predicate Consecutive(before: Push, p: Push, skips: bool) {
    p.history == before.history ==> p.from == before.to || (skips && p.from > before.to)
  }

  /** From the `k`-th push on, each push follows the one before. */
  ghost predicate ChainFrom(sent: seq<Push>, k: nat, skips: bool) {
    forall i :: 0 < i < |sent| && k <= i ==> Consecutive(sent[i - 1], sent[i], skips)
  }

  /**
   * The watch's position is where the last push ended, or where it started when nothing was pushed.
   * While events are gathered the position may be open: after a turn to another history, or after a
   * gap that a read could not fill.
   */
  ghost predicate Linked(line: Line, run: seq<Live>, start: Option<nat>, skips: bool) {
    && (line.sent == [] && run == [] ==> line.toSeq == start)
    && (line.toSeq.None? && run == [] ==> line.sent == [])
    && (line.sent != [] ==>
        var last := line.sent[|line.sent| - 1];
        && line.history.Some?
        && if line.toSeq.Some? then line.history.value == last.history && line.toSeq.value == last.to
           else line.history.value != last.history || (skips && run != [] && run[0].event.seqNo > last.to))
  }

  lemma FlushChain(line: Line, run: seq<Live>, book: Book, start: Option<nat>, k: nat, skips: bool)
    requires RunOk(line, run, book) && Linked(line, run, start, skips) && ChainFrom(line.sent, k, skips)
    ensures Linked(Flush(line, run), [], start, skips) && ChainFrom(Flush(line, run).sent, k, skips)
  {
    if run != [] {
      FlushAdds(line, run, book);
    }
  }

  lemma TakeChain(line: Line, run: seq<Live>, live: Live, repairTried: bool, book: Book, start: Option<nat>, k: nat)
    requires RunOk(line, run, book) && Linked(line, run, start, repairTried) && ChainFrom(line.sent, k, repairTried)
    ensures var t := Take(line, run, live, repairTried);
      ChainFrom(t.line.sent, k, repairTried) && Linked(t.line, if t.Next? then t.run else [], start, repairTried)
  {
    FlushChain(line, run, book, start, k, repairTried);
    if Turns(line, live) {
    } else if IsOld(Tail(line, run), live) {
    } else if !IsGap(Tail(line, run), live) {
      assert run != [] ==> (run + [live])[0] == run[0];
    } else {
    }
  }

  /** A drain's pushes follow on, skipping ahead only when a read was tried before. */
  lemma {:induction false} DrainLoopChain(
      line: Line, queued: seq<Live>, run: seq<Live>, repairTried: bool, book: Book, voice: History,
      start: Option<nat>, k: nat)
    requires Ready(line, run, book, voice) && AllKnown(queued, book) && OneVoice(line, queued, voice)
    requires Linked(line, run, start, repairTried) && ChainFrom(line.sent, k, repairTried)
    ensures var d := DrainLoop(line, queued, run, repairTried);
      Linked(d.line, [], start, repairTried) && ChainFrom(d.line.sent, k, repairTried)
    decreases queued
  {
    if queued == [] {
      FlushChain(line, run, book, start, k, repairTried);
    } else {
      TakeReady(line, run, queued[0], repairTried, book, voice);
      TakeChain(line, run, queued[0], repairTried, book, start, k);
      var t := Take(line, run, queued[0], repairTried);
      if t.Next? {
        TakeVoice(line, run, queued[0], repairTried, queued[1..], voice);
        DrainLoopChain(t.line, queued[1..], t.run, repairTried, book, voice, start, k);
      }
    }
  }

  // ---- No event is lost in a drain -------------------------------------------------------------------

  predicate Carries(p: Push, x: Live) { p.history == x.history && p.from <= x.event.seqNo < p.to }

  /** One of the pushes from the `k`-th on carries the event. */
  ghost predicate Held(sent: seq<Push>, k: nat, x: Live) {
    exists i :: k <= i < |sent| && Carries(sent[i], x)
  }

  /** The event was already at or below the watch's position. */
  predicate AtOrBelow(line: Line, x: Live) { IsOld(line.toSeq, x) && !Turns(line, x) }

  ghost predicate InRun(run: seq<Live>, x: Live) {
    exists i :: 0 <= i < |run| && run[i].history == x.history && run[i].event.seqNo == x.event.seqNo
  }

  /** Since `from`, the event has been pushed, gathered, or recognised as old. */
  ghost predicate Covered(from: Line, line: Line, run: seq<Live>, x: Live) {
    Held(line.sent, |from.sent|, x) || AtOrBelow(from, x) || InRun(run, x)
  }

  /** The loop's position relative to its start and to the event `before` it took last. */
  ghost predicate Following(from: Line, line: Line, run: seq<Live>, before: Option<Live>) {
    && |from.sent| <= |line.sent|
    && (run == [] ==> line == from)
    && (run != [] ==>
        && before.Some?
        && before.value.history == run[0].history
        && before.value.event.seqNo == run[|run| - 1].event.seqNo)
  }

  predicate InOrder(before: Option<Live>, live: Live) {
    before.Some? && before.value.history == live.history ==> before.value.event.seqNo <= live.event.seqNo
  }

  lemma FlushCovers(from: Line, line: Line, run: seq<Live>, book: Book, x: Live)
    requires |from.sent| <= |line.sent| && RunOk(line, run, book) && Covered(from, line, run, x)
    ensures Covered(from, Flush(line, run), [], x)
  {
    if run != [] {
      FlushAdds(line, run, book);
      var sent := Flush(line, run).sent;
      if Held(line.sent, |from.sent|, x) {
        var i :| |from.sent| <= i < |line.sent| && Carries(line.sent[i], x);
        assert Carries(sent[i], x);
      } else if InRun(run, x) {
        assert Carries(sent[|line.sent|], x);
      }
    }
  }

  lemma TakeFollows(from: Line, line: Line, run: seq<Live>, before: Option<Live>, live: Live, repairTried: bool,
        book: Book, voice: History)
    requires Ready(line, run, book, voice) && OneVoice(line, [live], voice)
    requires Following(from, line, run, before) && InOrder(before, live)
    ensures var t := Take(line, run, live, repairTried);
      t.Next? ==> Following(from, t.line, t.run, Some(live)) && Covered(from, t.line, t.run, live)
  {
    var t := Take(line, run, live, repairTried);
    if run != [] && !Turns(line, live) {
      RunVoice(line, run, live, book, voice);
    }
    if t.Next? && t.run != [] {
      assert t.run[|t.run| - 1].event.seqNo == live.event.seqNo;
      assert t.run[|t.run| - 1].history == live.history;
      assert t.run[0].history == live.history;
    }
  }

  lemma TakeKeepsCovered(from: Line, line: Line, run: seq<Live>, live: Live, repairTried: bool, book: Book, x: Live)
    requires |from.sent| <= |line.sent| && RunOk(line, run, book) && Covered(from, line, run, x)
    ensures var t := Take(line, run, live, repairTried);
      |from.sent| <= |t.line.sent| && Covered(from, t.line, if t.Next? then t.run else [], x)
  {
    FlushCovers(from, line, run, book, x);
    if !Turns(line, live) && !IsGap(Tail(line, run), live) && InRun(run, x) {
      var i :| 0 <= i < |run| && run[i].history == x.history && run[i].event.seqNo == x.event.seqNo;
      assert (run + [live])[i] == run[i];
    }
  }

  lemma {:induction false} DrainLoopKeepsCovered(
      from: Line, line: Line, queued: seq<Live>, run: seq<Live>, repairTried: bool, book: Book, voice: History, x: Live)
    requires Ready(line, run, book, voice) && AllKnown(queued, book) && OneVoice(line, queued, voice)
    requires |from.sent| <= |line.sent| && Covered(from, line, run, x)
    ensures Covered(from, DrainLoop(line, queued, run, repairTried).line, [], x)
    decreases queued
  {
    if queued == [] {
      FlushCovers(from, line, run, book, x);
    } else {
      TakeReady(line, run, queued[0], repairTried, book, voice);
      TakeKeepsCovered(from, line, run, queued[0], repairTried, book, x);
      var t := Take(line, run, queued[0], repairTried);
      if t.Next? {
        TakeVoice(line, run, queued[0], repairTried, queued[1..], voice);
        DrainLoopKeepsCovered(from, t.line, queued[1..], t.run, repairTried, book, voice, x);
      }
    }
  }

  /** Every event a drain takes up is pushed, was old already, or is left for after the repair. */
  lemma {:induction false} DrainLoopCovers(
      from: Line, line: Line, queued: seq<Live>, run: seq<Live>, before: Option<Live>, repairTried: bool,
      book: Book, voice: History, x: Live)
    requires Ready(line, run, book, voice) && AllKnown(queued, book) && OneVoice(line, queued, voice)
    requires Following(from, line, run, before) && SortedWithin(queued) && x in queued && InOrder(before, queued[0])
    ensures var d := DrainLoop(line, queued, run, repairTried); Covered(from, d.line, [], x) || x in d.left
    decreases queued
  {
    var live, rest := queued[0], queued[1..];
    TakeReady(line, run, live, repairTried, book, voice);
    TakeFollows(from, line, run, before, live, repairTried, book, voice);
    var t := Take(line, run, live, repairTried);
    if t.Next? {
      TakeVoice(line, run, live, repairTried, rest, voice);
      if x == live {
        DrainLoopKeepsCovered(from, t.line, rest, t.run, repairTried, book, voice, x);
      } else {
        assert x in rest;
        assert SortedWithin(rest) by {
          assert forall i :: 0 <= i < |rest| ==> rest[i] == queued[i + 1];
        }
        assert InOrder(Some(live), rest[0]) by { assert rest[0] == queued[1] && queued[1 - 1] == live; }
        DrainLoopCovers(from, t.line, rest, t.run, Some(live), repairTried, book, voice, x);
      }
    }
  }
}
