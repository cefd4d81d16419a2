/**
 * The first drain of a watch: before its first push names a history, a watch cannot tell the histories of
 * queued events apart. When its pushes are right all the same, and inputs for which they are not.
 */
module WatchFirstDrain {
  import opened Options
  import opened Mapper
  import opened EventLog
  import opened WatchProtocol
  import opened WatchSafety
  import opened WatchRuns
  import opened WatchDrops

  // ---- The next push -----------------------------------------------------------------------------------

  /** How many events a drain takes up from a position (None: anywhere) before the first gap. */
  function Stretch(queued: seq<Live>, tail: Option<nat>): (n: nat)
    ensures n <= |queued|
  {
    if queued == [] then 0
    else
      var seqNo := queued[0].event.seqNo;
      if tail.None? then 1 + Stretch(queued[1..], Some(seqNo + 1))
      else if seqNo > tail.value then 0
      else 1 + Stretch(queued[1..], Some(if seqNo == tail.value then tail.value + 1 else tail.value))
  }

  /** The next push after the first `k` carries the event. */
  predicate NextCarries(sent: seq<Push>, k: nat, x: Live) { k < |sent| && Carries(sent[k], x) }

  /** A watch without a history gathers the event that continues its run and drops an older one. */
  lemma TakeGathers(line: Line, run: seq<Live>, live: Live, repairTried: bool)
    requires line.history.None? && run != [] && live.event.seqNo <= run[|run| - 1].event.seqNo + 1
    ensures Take(line, run, live, repairTried)
         == Next(line, if live.event.seqNo == run[|run| - 1].event.seqNo + 1 then run + [live] else run)
  {
  }

  /** What a watch without a history gathers goes out in one push, whatever histories it is of. */
  lemma {:induction false} GatheredPush(line: Line, queued: seq<Live>, run: seq<Live>, repairTried: bool)
    requires line.history.None? && run != []
    ensures var n := Stretch(queued, Some(run[|run| - 1].event.seqNo + 1));
      var (sent, k) := (DrainLoop(line, queued, run, repairTried).line.sent, |line.sent|);
      && k < |sent|
      && sent[k].history == run[0].history && sent[k].from == line.toSeq.GetOr(run[0].event.seqNo)
      && sent[k].to > run[|run| - 1].event.seqNo
      && forall i :: 0 <= i < n ==> queued[i].event.seqNo < sent[k].to
    decreases queued
  {
    var tail := run[|run| - 1].event.seqNo + 1;
    if queued != [] && queued[0].event.seqNo <= tail {
      TakeGathers(line, run, queued[0], repairTried);
      hide Take, Flush;
      var t := Take(line, run, queued[0], repairTried);
      GatheredPush(line, queued[1..], t.run, repairTried);
      assert forall i :: 0 < i < |queued| ==> queued[i] == queued[1..][i - 1];
    } else {
      NextPush(line, queued, run, repairTried);
    }
  }

  /** The first push of a watch without a history starts at its position or beyond it. */
  lemma {:induction false} FirstPushFrom(line: Line, queued: seq<Live>, repairTried: bool)
    requires line.history.None? && line.toSeq.Some?
    ensures var sent := DrainLoop(line, queued, [], repairTried).line.sent;
      |line.sent| < |sent| ==> sent[|line.sent|].from >= line.toSeq.value
    decreases queued
  {
    if queued != [] {
      var live := queued[0];
      assert [] + [live] == [live];
      if live.event.seqNo < line.toSeq.value {
        FirstPushFrom(line, queued[1..], repairTried);
      } else if live.event.seqNo == line.toSeq.value {
        GatheredPush(line, queued[1..], [live], repairTried);
      } else if repairTried {
        GatheredPush(line.(toSeq := None), queued[1..], [live], true);
      }
    }
  }

  lemma {:induction false} SortedFrom(queued: seq<Live>, n: nat, i: nat)
    requires i < n <= |queued| && SortedWithin(queued)
    requires forall k :: 0 <= k < n ==> queued[k].history == queued[0].history
    ensures queued[0].event.seqNo <= queued[i].event.seqNo
  {
    if i > 0 {
      SortedFrom(queued, n, i - 1);
    }
  }

  /** Where the first push of a drain starts: at the position, or anywhere behind a gap that is skipped. */
  function Lead(line: Line, queued: seq<Live>, repairTried: bool): Option<nat> {
    if repairTried && queued != [] && IsGap(line.toSeq, queued[0]) then None else line.toSeq
  }

  /** The next push, when the queue does not start behind a gap that is skipped. */
  lemma NextPushNeedsOneHistory(line: Line, queued: seq<Live>, repairTried: bool)
    requires line.history.None? && SortedWithin(queued)
    ensures var n := Stretch(queued, line.toSeq);
      var sent := DrainLoop(line, queued, [], repairTried).line.sent;
      (forall i :: 0 <= i < n ==> NextCarries(sent, |line.sent|, queued[i])) <==>
      (forall i :: 0 <= i < n ==>
        queued[i].history == queued[0].history && (line.toSeq.Some? ==> queued[i].event.seqNo >= line.toSeq.value))
  {
    var n := Stretch(queued, line.toSeq);
    if n > 0 && line.toSeq.Some? && queued[0].event.seqNo < line.toSeq.value {
      FirstPushFrom(line, queued, repairTried);
    } else if n > 0 {
      assert [] + [queued[0]] == [queued[0]];
      assert Take(line, [], queued[0], repairTried) == Next(line, [queued[0]]);
      GatheredPush(line, queued[1..], [queued[0]], repairTried);
      assert forall i :: 0 < i < |queued| ==> queued[i] == queued[1..][i - 1];
      forall i | 0 <= i < n && line.toSeq.None? && forall k :: 0 <= k < n ==> queued[k].history == queued[0].history
        ensures queued[0].event.seqNo <= queued[i].event.seqNo
      {
        SortedFrom(queued, n, i);
      }
    }
  }

  /**
   * A watch without a history cannot tell histories apart, and takes its position to be one of whatever
   * log comes. Its next push carries the queued events up to the next gap (behind the gap it skips, when a
   * repair was tried) exactly when they share one history and none lies below the position.
   */
  lemma FirstDrainNeedsOneHistory(line: Line, queued: seq<Live>, repairTried: bool)
    requires line.history.None? && SortedWithin(queued)
    ensures var n := Stretch(queued, Lead(line, queued, repairTried));
      var sent := DrainLoop(line, queued, [], repairTried).line.sent;
      (forall i :: 0 <= i < n ==> NextCarries(sent, |line.sent|, queued[i])) <==>
      (forall i :: 0 <= i < n ==>
        queued[i].history == queued[0].history && (line.toSeq.Some? ==> queued[i].event.seqNo >= line.toSeq.value))
  {
    NextPushNeedsOneHistory(line, queued, repairTried);
    if Lead(line, queued, repairTried) != line.toSeq {
      var open := line.(toSeq := None);
      NextPushNeedsOneHistory(open, queued, repairTried);
      assert [] + [queued[0]] == [queued[0]];
      assert DrainLoop(line, queued, [], repairTried) == DrainLoop(open, queued, [], repairTried);
      var n := Stretch(queued, None);
      forall i | 0 <= i < n && forall k :: 0 <= k < n ==> queued[k].history == queued[0].history
        ensures queued[i].event.seqNo >= line.toSeq.value
      {
        SortedFrom(queued, n, i);
      }
    }
  }

  // ---- The whole drain -----------------------------------------------------------------------------------

  /** Each event the drain takes is carried by the push that goes out next. */
  ghost predicate AllTold(line: Line, queued: seq<Live>, run: seq<Live>, repairTried: bool, sent: seq<Push>)
    decreases queued
  {
    queued == [] ||
    match Take(line, run, queued[0], repairTried)
    case Next(line1, run1) =>
      NextCarries(sent, |line1.sent|, queued[0]) && AllTold(line1, queued[1..], run1, repairTried, sent)
    case Missing(_) => true
  }

  /**
   * `first` is gathered behind a skipped gap, after a push of history `h`: it is of that history too; or what
   * follows turns away from `h`; or `h` comes back only behind another gap.
   */
  predicate Rejoins(first: Live, rest: seq<Live>, h: History)
    decreases rest
  {
    || first.history == h
    || rest == []
    || rest[0].history != h
    || (rest[0].event.seqNo > first.event.seqNo + 1 && Rejoins(rest[0], rest[1..], first.history))
  }

  /** Up to the next gap, from `tail` on, all is of history `h`; behind a gap that is skipped, `Rejoins`. */
  predicate OneLogFrom(queued: seq<Live>, tail: nat, h: History, repairTried: bool) {
    || queued == []
    || (queued[0].event.seqNo > tail && (repairTried ==> Rejoins(queued[0], queued[1..], h)))
    || (queued[0].event.seqNo <= tail && queued[0].history == h
        && OneLogFrom(queued[1..], if queued[0].event.seqNo == tail then tail + 1 else tail, h, repairTried))
  }

  /** Nothing is taken because a gap comes first, or the queue starts no lower than the position and is of one log. */
  predicate Clear(position: Option<nat>, queued: seq<Live>, repairTried: bool) {
    || queued == []
    || (IsGap(position, queued[0]) && !repairTried)
    || (!IsOld(position, queued[0])
        && OneLogFrom(queued[1..], queued[0].event.seqNo + 1, queued[0].history, repairTried))
  }

  /** What is gathered starts no lower than the position. */
  predicate Gathers(line: Line, run: seq<Live>) {
    && run != []
    && run[0].event.seqNo <= run[|run| - 1].event.seqNo
    && (line.toSeq.Some? ==> line.toSeq.value <= run[0].event.seqNo)
  }

  /** An event within what is gathered is carried by the next push exactly when the push is of its history. */
  lemma TakenTold(line: Line, queued: seq<Live>, run: seq<Live>, repairTried: bool, x: Live)
    requires Gathers(line, run) && x.event.seqNo <= run[|run| - 1].event.seqNo
    requires x.history == run[0].history ==> run[0].event.seqNo <= x.event.seqNo
    ensures var sent := DrainLoop(line, queued, run, repairTried).line.sent;
      NextCarries(sent, |line.sent|, x) <==> x.history == run[0].history
  {
    NextPush(line, queued, run, repairTried);
  }

  /** The last event taken is the last one gathered, and what is queued is in order behind it. */
  ghost predicate LastTaken(run: seq<Live>, before: Live, queued: seq<Live>)
    requires run != []
  {
    && before.history == run[0].history && before.event.seqNo == run[|run| - 1].event.seqNo
    && SortedWithin([before] + queued)
  }

  lemma Onward(before: Live, queued: seq<Live>)
    requires queued != [] && SortedWithin([before] + queued)
    ensures InOrder(Some(before), queued[0]) && SortedWithin([queued[0]] + queued[1..])
  {
    var all := [before] + queued;
    assert [queued[0]] + queued[1..] == queued;
    assert all[0] == before && all[1] == queued[0];
    forall i | 0 < i < |queued| && queued[i - 1].history == queued[i].history
      ensures queued[i - 1].event.seqNo <= queued[i].event.seqNo
    {
      assert all[i] == queued[i - 1] && all[i + 1] == queued[i];
    }
  }

  /** Once the watch's history is that of what it gathers, every event is told. */
  lemma {:induction false} SettledTells(line: Line, queued: seq<Live>, run: seq<Live>, repairTried: bool, before: Live)
    requires Gathers(line, run) && line.history == Some(run[0].history) && LastTaken(run, before, queued)
    ensures AllTold(line, queued, run, repairTried, DrainLoop(line, queued, run, repairTried).line.sent)
    decreases queued
  {
    if queued != [] {
      Onward(before, queued);
      var live := queued[0];
      var t := Take(line, run, live, repairTried);
      if t.Next? {
        TakenTold(t.line, queued[1..], t.run, repairTried, live);
        SettledTells(t.line, queued[1..], t.run, repairTried, live);
      }
    }
  }

  /** Behind a skipped gap the watch's history is still the one of the push before it. */
  lemma {:induction false} SkippedTells(line: Line, queued: seq<Live>, first: Live, h: History)
    requires line.history == Some(h) && line.toSeq.None? && SortedWithin([first] + queued)
    ensures AllTold(line, queued, [first], true, DrainLoop(line, queued, [first], true).line.sent)
       <==> Rejoins(first, queued, h)
    decreases queued
  {
    if first.history == h {
      SettledTells(line, queued, [first], true, first);
    } else if queued != [] {
      Onward(first, queued);
      var live := queued[0];
      var t := Take(line, [first], live, true);
      TakenTold(t.line, queued[1..], t.run, true, live);
      if live.history != h {
        SettledTells(t.line, queued[1..], t.run, true, live);
      } else if live.event.seqNo > first.event.seqNo + 1 {
        SkippedTells(t.line, queued[1..], live, first.history);
      }
    }
  }

  /** Without a history everything up to the next gap is taken for one log. */
  lemma {:induction false} GatheredTells(line: Line, queued: seq<Live>, run: seq<Live>, repairTried: bool, before: Live)
    requires line.history.None? && Gathers(line, run) && LastTaken(run, before, queued)
    ensures AllTold(line, queued, run, repairTried, DrainLoop(line, queued, run, repairTried).line.sent)
       <==> OneLogFrom(queued, run[|run| - 1].event.seqNo + 1, run[0].history, repairTried)
    decreases queued
  {
    if queued != [] {
      Onward(before, queued);
      var live := queued[0];
      var t := Take(line, run, live, repairTried);
      if t.Next? {
        TakenTold(t.line, queued[1..], t.run, repairTried, live);
        if live.event.seqNo > run[|run| - 1].event.seqNo + 1 {
          SkippedTells(t.line, queued[1..], live, run[0].history);
        } else if live.history == run[0].history {
          GatheredTells(t.line, queued[1..], t.run, repairTried, live);
        }
      }
    }
  }

  lemma {:induction false} ToldIsHeld(line: Line, queued: seq<Live>, run: seq<Live>, repairTried: bool,
        sent: seq<Push>, x: Live)
    requires AllTold(line, queued, run, repairTried, sent) && x in queued
    ensures x in DrainLoop(line, queued, run, repairTried).left || Held(sent, |line.sent|, x)
    decreases queued
  {
    var t := Take(line, run, queued[0], repairTried);
    if t.Next? {
      if x == queued[0] {
        assert Carries(sent[|t.line.sent|], x);
      } else {
        ToldIsHeld(t.line, queued[1..], t.run, repairTried, sent, x);
        if Held(sent, |t.line.sent|, x) {
          var i :| |t.line.sent| <= i < |sent| && Carries(sent[i], x);
          assert Carries(sent[i], x);
        }
      }
    }
  }

  /** Where every event is told by a push of its own history, every push is a slice of the log it names. */
  lemma {:induction false} ToldIsExact(line: Line, queued: seq<Live>, run: seq<Live>, repairTried: bool, book: Book)
    requires ValidBook(book) && AllKnown(queued, book)
    requires RunOk(line.(history := None), run, book) && AllExact(line.sent, book)
    requires AllTold(line, queued, run, repairTried, DrainLoop(line, queued, run, repairTried).line.sent)
    ensures AllExact(DrainLoop(line, queued, run, repairTried).line.sent, book)
    decreases queued
  {
    FlushExact(line.(history := None), run, book);
    assert run != [] ==> Flush(line, run) == Flush(line.(history := None), run);
    if queued != [] {
      var live := queued[0];
      var t := Take(line, run, live, repairTried);
      if t.Next? {
        if !Turns(line, live) && !IsOld(Tail(line, run), live) && !IsGap(Tail(line, run), live) && run != [] {
          NextPush(line, queued[1..], t.run, repairTried);
          ExtendRun(line.(history := None), run, live, book);
        } else if t.run == [live] {
          StartRun(t.line.(history := None), live, book);
        }
        ToldIsExact(t.line, queued[1..], t.run, repairTried, book);
      }
    }
  }

  lemma FirstDrainTells(line: Line, queued: seq<Live>, repairTried: bool)
    requires line.history.None? && SortedWithin(queued)
    ensures AllTold(line, queued, [], repairTried, DrainLoop(line, queued, [], repairTried).line.sent)
       <==> Clear(line.toSeq, queued, repairTried)
  {
    if queued != [] {
      var live := queued[0];
      assert [] + [live] == [live] && [live] + queued[1..] == queued;
      var t := Take(line, [], live, repairTried);
      if IsOld(line.toSeq, live) {
        FirstPushFrom(line, queued, repairTried);
      } else if t.Next? {
        assert t.run == [live] && t.line.sent == line.sent;
        TakenTold(t.line, queued[1..], t.run, repairTried, live);
        GatheredTells(t.line, queued[1..], t.run, repairTried, live);
      }
    }
  }

  /**
   * The first drain, for every queue: each event it takes is carried by the push that goes out next exactly
   * when the queue is `Clear`. Then every push is a slice of the log it names, and every event is in one
   * of its history or left behind a gap to read.
   */
  lemma FirstDrainIsRight(line: Line, queued: seq<Live>, repairTried: bool, book: Book)
    requires line.history.None? && SortedWithin(queued)
    requires ValidBook(book) && AllKnown(queued, book) && AllExact(line.sent, book)
    ensures var d := DrainLoop(line, queued, [], repairTried);
      && (AllTold(line, queued, [], repairTried, d.line.sent) <==> Clear(line.toSeq, queued, repairTried))
      && (Clear(line.toSeq, queued, repairTried) ==>
            AllExact(d.line.sent, book) && forall x <- queued :: x in d.left || Held(d.line.sent, |line.sent|, x))
  {
    FirstDrainTells(line, queued, repairTried);
    hide DrainLoop, AllTold, Clear, AllExact, Held, AllKnown, ValidBook;
    var d := DrainLoop(line, queued, [], repairTried);
    if AllTold(line, queued, [], repairTried, d.line.sent) {
      ToldIsExact(line, queued, [], repairTried, book);
      forall x <- queued ensures x in d.left || Held(d.line.sent, |line.sent|, x) {
        ToldIsHeld(line, queued, [], repairTried, d.line.sent, x);
      }
    }
  }

  // ---- Inputs that go wrong --------------------------------------------------------------------------------

  /** An event of no interest, told from others by when it happened. */
  function Plain(seqNo: nat, time: int): Event { Event(seqNo, time, OtherEvent) }

  /** A log of such events. */
  function Log(length: nat, time: int): seq<Event> { seq(length, i requires 0 <= i < length => Plain(i, time)) }

  /** Two logs, told apart by the times of their events. */
  function TwoLogs(a: nat, b: nat): Book { map["a" := Log(a, 0), "b" := Log(b, 1)] }

  lemma LogsOfTwo(a: nat, b: nat)
    ensures ValidBook(TwoLogs(a, b)) && |LogOf(TwoLogs(a, b), "a")| == a && |LogOf(TwoLogs(a, b), "b")| == b
    ensures forall n: nat :: n < a ==> Known(Live(Plain(n, 0), "a"), TwoLogs(a, b))
    ensures forall n: nat :: n < b ==> Known(Live(Plain(n, 1), "b"), TwoLogs(a, b))
  {
  }

  lemma KnownOnes(a: Live, b: Live, c: Live, book: Book)
    requires Known(a, book) && Known(b, book) && Known(c, book)
    ensures AllKnown([a, b], book) && AllKnown([a, b, c], book)
  {
  }

  /** A queue that is sorted already is drained as it stands. */
  lemma SortedDrain(w: Watch)
    requires w.queue != [] && SortWithinHistories(w.queue) == w.queue
    ensures var d := DrainLoop(w.line, w.queue, [], w.repairTried);
      DrainQueue(w).line == d.line && DrainQueue(w).queue == d.left
  {
    hide SortWithinHistories, DrainLoop;
  }

  lemma TurnOfRuns(events: seq<Live>, live: Live)
    requires events != [] && live.history != events[|events| - 1].history
    requires RunsOf(events).growing == [events[|events| - 1]]
    ensures RunsOf(events + [live]) == Runs(SortWithinHistories(events), [live])
    ensures SortWithinHistories(events + [live]) == SortWithinHistories(events) + [live]
  {
    assert (events + [live])[..|events|] == events;
    OneRun(live);
  }

  /** Histories that take turns event by event stay in arrival order. */
  lemma TurnsStay(a: Live, b: Live, c: Live)
    requires a.history != b.history && b.history != c.history
    ensures SortWithinHistories([a, b]) == [a, b] && SortWithinHistories([a, b, c]) == [a, b, c]
  {
    OneRun(a);
    TurnOfRuns([a], b);
    assert [a] + [b] == [a, b];
    TurnOfRuns([a, b], c);
    assert [a, b] + [c] == [a, b, c];
  }

  /** Without a history two events in a row go out in one push, whatever their histories. */
  lemma TwoGathered(line: Line, a: Live, b: Live, repairTried: bool)
    requires line.history.None? && !IsOld(line.toSeq, a) && (IsGap(line.toSeq, a) ==> repairTried)
    requires b.event.seqNo == a.event.seqNo + 1
    ensures var d := DrainLoop(line, [a, b], [], repairTried);
      d.left == [] && d.line.sent == line.sent + [Push(a.history, a.event.seqNo, b.event.seqNo + 1, [a.event, b.event])]
  {
    assert [a, b][1..] == [b] && [b][1..] == [] && [] + [a] == [a] && [a] + [b] == [a, b];
    var line1 := if IsGap(line.toSeq, a) then line.(toSeq := None) else line;
    assert Take(line, [], a, repairTried) == Next(line1, [a]);
    assert Take(line1, [a], b, repairTried) == Next(line1, [a, b]);
    assert DrainLoop(line, [a, b], [], repairTried) == DrainLoop(line1, [b], [a], repairTried)
        == DrainLoop(line1, [], [a, b], repairTried);
    assert EventsOf([a, b]) == [a.event, b.event];
  }

  /** An event below the one gathered is dropped, whatever its history. */
  lemma OldDropped(line: Line, a: Live, b: Live)
    requires line.history.None? && line.toSeq.None? && b.event.seqNo <= a.event.seqNo
    ensures DrainLoop(line, [a, b], [], false)
         == Drain(Line(Some(a.history), Some(a.event.seqNo + 1),
                       line.sent + [Push(a.history, a.event.seqNo, a.event.seqNo + 1, [a.event])]), [])
  {
    assert [a, b][1..] == [b] && [b][1..] == [] && [] + [a] == [a];
    assert Take(line, [], a, false) == Next(line, [a]);
    assert Take(line, [a], b, false) == Next(line, [a]);
    assert DrainLoop(line, [a, b], [], false) == DrainLoop(line, [b], [a], false) == DrainLoop(line, [], [a], false);
    assert EventsOf([a]) == [a.event];
  }

  lemma OnlyPush(p: Push, x: Live)
    ensures Held([p], 0, x) <==> Carries(p, x)
  {
    assert [p][0] == p;
  }

  /** A push that reaches beyond the log it names is not a slice of it. */
  lemma BeyondIsWrong(sent: seq<Push>, i: nat, book: Book)
    requires i < |sent| && sent[i].to > |LogOf(book, sent[i].history)|
    ensures !AllExact(sent, book)
  {
    assert !Exact(sent[i], book);
  }

  /** Two histories in the first queue: an event is pushed under a log that does not even reach it. */
  lemma MixedFirstQueueIsWrong()
    ensures var w := Opened(0).(queue := [Live(Plain(0, 0), "a"), Live(Plain(1, 1), "b")]);
      && ValidBook(TwoLogs(1, 2)) && AllKnown(w.queue, TwoLogs(1, 2))
      && DrainQueue(w).line.sent == [Push("a", 0, 2, [Plain(0, 0), Plain(1, 1)])]
      && !AllExact(DrainQueue(w).line.sent, TwoLogs(1, 2))
  {
    var (a, b) := (Live(Plain(0, 0), "a"), Live(Plain(1, 1), "b"));
    hide DrainLoop, SortWithinHistories, AllExact, AllKnown, LogOf, TwoLogs, Log, DrainQueue, ValidBook, Known;
    LogsOfTwo(1, 2);
    KnownOnes(a, b, a, TwoLogs(1, 2));
    TurnsStay(a, b, a);
    TwoGathered(Line(None, None, []), a, b, false);
    SortedDrain(Opened(0).(queue := [a, b]));
    BeyondIsWrong([Push("a", 0, 2, [a.event, b.event])], 0, TwoLogs(1, 2));
  }

  /** Or the push is right, and an event of the other history is dropped although nobody was told of it. */
  lemma MixedFirstQueueLoses()
    ensures var w := Opened(0).(queue := [Live(Plain(3, 1), "b"), Live(Plain(1, 0), "a")]);
      && ValidBook(TwoLogs(2, 4)) && AllKnown(w.queue, TwoLogs(2, 4))
      && DrainQueue(w).line.sent == [Push("b", 3, 4, [Plain(3, 1)])] && DrainQueue(w).queue == []
      && !Held(DrainQueue(w).line.sent, 0, Live(Plain(1, 0), "a"))
  {
    var (b, a, line) := (Live(Plain(3, 1), "b"), Live(Plain(1, 0), "a"), Line(None, None, []));
    hide DrainLoop, SortWithinHistories, AllKnown, LogOf, TwoLogs, Log, DrainQueue, ValidBook, Known, Held;
    LogsOfTwo(2, 4);
    KnownOnes(b, a, b, TwoLogs(2, 4));
    TurnsStay(b, a, b);
    OldDropped(line, b, a);
    SortedDrain(Opened(0).(queue := [b, a]));
    OnlyPush(Push("b", 3, 4, [b.event]), a);
  }

  /**
   * The same behind a gap. A node watches from position 2 and the first read failed; the drain skips the
   * gap and takes two histories for one log.
   */
  lemma MixedBehindGapIsWrong()
    ensures var w := Unsettled(true, [Live(Plain(5, 0), "a"), Live(Plain(6, 1), "b")], true, Idle);
      && ValidBook(TwoLogs(6, 7)) && AllKnown(w.queue, TwoLogs(6, 7))
      && DrainQueue(w).line.sent == [Push("a", 5, 7, [Plain(5, 0), Plain(6, 1)])]
      && !AllExact(DrainQueue(w).line.sent, TwoLogs(6, 7))
  {
    var (a, b) := (Live(Plain(5, 0), "a"), Live(Plain(6, 1), "b"));
    hide DrainLoop, SortWithinHistories, AllExact, AllKnown, LogOf, TwoLogs, Log, DrainQueue, ValidBook, Known;
    LogsOfTwo(6, 7);
    KnownOnes(a, b, a, TwoLogs(6, 7));
    TurnsStay(a, b, a);
    TwoGathered(Line(None, Some(2), []), a, b, true);
    SortedDrain(Unsettled(true, [a, b], true, Idle));
    BeyondIsWrong([Push("a", 5, 7, [a.event, b.event])], 0, TwoLogs(6, 7));
  }

  /** Behind a skipped gap an event of the history last pushed is gathered with one of another history. */
  lemma SkippedThenGathered(line: Line, a: Live, b: Live, c: Live)
    requires line.history.None? && line.toSeq == Some(a.event.seqNo)
    requires b.event.seqNo > a.event.seqNo + 1 && c.event.seqNo == b.event.seqNo + 1
    requires a.history == c.history
    ensures DrainLoop(line, [a, b, c], [], true).line.sent == line.sent + [
      Push(a.history, a.event.seqNo, a.event.seqNo + 1, [a.event]),
      Push(b.history, b.event.seqNo, c.event.seqNo + 1, [b.event, c.event])]
  {
    assert [a, b, c][1..] == [b, c] && [b, c][1..] == [c] && [c][1..] == [];
    assert [] + [a] == [a] && [b] + [c] == [b, c];
    assert EventsOf([a]) == [a.event] && EventsOf([b, c]) == [b.event, c.event];
    var p := Push(a.history, a.event.seqNo, a.event.seqNo + 1, [a.event]);
    var line1 := Line(Some(a.history), None, line.sent + [p]);
    assert Take(line, [], a, true) == Next(line, [a]);
    assert Take(line, [a], b, true) == Next(line1, [b]);
    assert Take(line1, [b], c, true) == Next(line1, [b, c]);
    assert DrainLoop(line, [a, b, c], [], true) == DrainLoop(line, [b, c], [a], true);
    assert DrainLoop(line, [b, c], [a], true) == DrainLoop(line1, [c], [b], true);
    assert DrainLoop(line1, [c], [b], true) == DrainLoop(line1, [], [b, c], true);
  }

  /** A first push that is right does not help: behind it a gap is skipped into another log, and a push mixes both. */
  lemma MixedBehindFirstPushIsWrong()
    ensures var queue := [Live(Plain(2, 0), "a"), Live(Plain(5, 1), "b"), Live(Plain(6, 0), "a")];
      var w := Unsettled(true, queue, true, Idle);
      && ValidBook(TwoLogs(7, 6)) && AllKnown(w.queue, TwoLogs(7, 6))
      && DrainQueue(w).line.sent == [Push("a", 2, 3, [Plain(2, 0)]), Push("b", 5, 7, [Plain(5, 1), Plain(6, 0)])]
      && !AllExact(DrainQueue(w).line.sent, TwoLogs(7, 6))
  {
    var (a, b, c) := (Live(Plain(2, 0), "a"), Live(Plain(5, 1), "b"), Live(Plain(6, 0), "a"));
    hide DrainLoop, SortWithinHistories, AllExact, AllKnown, LogOf, TwoLogs, Log, DrainQueue, ValidBook, Known;
    LogsOfTwo(7, 6);
    KnownOnes(a, b, c, TwoLogs(7, 6));
    TurnsStay(a, b, c);
    SkippedThenGathered(Line(None, Some(2), []), a, b, c);
    SortedDrain(Unsettled(true, [a, b, c], true, Idle));
    BeyondIsWrong([Push("a", 2, 3, [a.event]), Push("b", 5, 7, [b.event, c.event])], 1, TwoLogs(7, 6));
  }
}
