/** The watch as the runtime keeps it: one object per watched session, updated in place. */
module WatchState {
  import opened Options
  import opened Mapper
  import opened EventLog
  import opened Numbers
  import opened WatchProtocol

  /** One pass over the queue: a run is sorted when an event of another history ends it. */
  method SortRuns(events: seq<Live>) returns (sorted: seq<Live>)
    ensures sorted == SortWithinHistories(events)
  {
    var run: seq<Live> := [];
    sorted := [];
    for i := 0 to |events|
      invariant Runs(sorted, run) == RunsOf(events[..i])
    {
      assert events[..i + 1][..i] == events[..i];
      var live := events[i];
      if |run| > 0 && run[0].history == live.history {
        run := run + [live];
      } else {
        sorted, run := sorted + SortBySeq(run), [live];
      }
    }
    assert events[..|events|] == events;
    sorted := sorted + SortBySeq(run);
  }

  class WatchState {
    var closed: bool
    var history: Option<History>
    var toSeq: Option<nat>
    var catchUpDue: bool
    var repairTried: bool
    var queue: seq<Live>
    var flushTimer: bool
    var startTimer: bool
    var pumping: bool
    var dirty: bool
    /** Where the pump waits, while it runs. */
    var stage: Stage
    /** The notifications sent so far. */
    var outbox: seq<Push>

    predicate Valid()
      reads this
    {
      pumping <==> stage != Idle
    }

    function ViewLine(): Line
      reads this
    {
      Line(history, toSeq, outbox)
    }

    function View(): Watch
      reads this
    {
      Watch(ViewLine(), closed, catchUpDue, repairTried, queue, flushTimer, startTimer, dirty, stage)
    }

    constructor (since: nat)
      ensures Valid() && View() == Opened(since)
    {
      closed, history, toSeq := false, None, if since > 0 then Some(since) else None;
      catchUpDue, repairTried, queue := since > 0, false, [];
      flushTimer, startTimer := false, since > 0;
      pumping, dirty, stage, outbox := false, false, Idle, [];
    }

    method PushBatch(events: seq<Event>, h: History)
      requires events != []
      modifies this`history, this`toSeq, this`outbox
      ensures ViewLine() == WatchProtocol.PushBatch(old(ViewLine()), events, h)
    {
      var from := toSeq.GetOr(events[0].seqNo);
      var to := events[|events| - 1].seqNo + 1;
      outbox := outbox + [Push(h, from, to, events)];
      toSeq := Some(to);
      history := Some(h);
    }

    method Flush(run: seq<Live>)
      modifies this`history, this`toSeq, this`outbox
      ensures ViewLine() == WatchProtocol.Flush(old(ViewLine()), run)
    {
      if |run| > 0 {
        PushBatch(EventsOf(run), run[0].history);
      }
    }

    /** One event of the sorted queue; `missing` when events before it have to be read first. */
    method TakeEvent(live: Live, gathered: seq<Live>) returns (missing: bool, run: seq<Live>)
      modifies this`history, this`toSeq, this`outbox
      ensures
        match Take(old(ViewLine()), gathered, live, repairTried)
        case Next(line, gathered') => !missing && ViewLine() == line && run == gathered'
        case Missing(line) => missing && ViewLine() == line
    {
      missing, run := false, gathered;
      if history.Some? && live.history != history.value {
        Flush(run);
        run := [];
        history := Some(live.history);
        toSeq := None;
      }
      var tail := if |run| > 0 then Some(run[|run| - 1].event.seqNo + 1) else toSeq;
      var seqNo := live.event.seqNo + 1;
      if tail.Some? && seqNo <= tail.value {
        return;
      }
      if tail.Some? && seqNo - 1 > tail.value {
        Flush(run);
        run := [];
        if !repairTried {
          missing := true;
          return;
        }
        toSeq := None;
      }
      run := run + [live];
    }

    /** Push the sorted queue; what follows a gap that has to be read first is left. */
    method DrainSorted(queued: seq<Live>) returns (left: seq<Live>)
      modifies this`history, this`toSeq, this`outbox
      ensures Drain(ViewLine(), left) == DrainLoop(old(ViewLine()), queued, [], repairTried)
    {
      var run: seq<Live> := [];
      for i := 0 to |queued|
        invariant DrainLoop(ViewLine(), queued[i..], run, repairTried) ==
          DrainLoop(old(ViewLine()), queued, [], repairTried)
      {
        assert queued[i..][1..] == queued[i + 1..];
        var missing, gathered := TakeEvent(queued[i], run);
        if missing {
          return queued[i..];
        }
        run := gathered;
      }
      Flush(run);
      return [];
    }

    /** The synchronous part of a drain. */
    method DrainQueue()
      modifies this`history, this`toSeq, this`outbox, this`queue, this`catchUpDue, this`repairTried
      ensures View() == WatchProtocol.DrainQueue(old(View()))
    {
      if |queue| == 0 {
        return;
      }
      var queued := SortRuns(queue);
      queue := [];
      var left := DrainSorted(queued);
      assert left + queue == left;
      if |left| > 0 {
        queue := left + queue;
        catchUpDue := true;
        return;
      }
      repairTried := false;
    }

    /** Run the pump up to its first wait. */
    method EnterDrain()
      requires !closed
      modifies this
      ensures View() == WatchProtocol.EnterDrain(old(View())) && pumping == old(pumping)
    {
      if catchUpDue {
        catchUpDue := false;
        stage := Reading(toSeq.GetOr(0));
      } else {
        DrainQueue();
        stage := Drained;
      }
    }

    method Pump()
      requires Valid()
      modifies this
      ensures Valid() && View() == WatchProtocol.Pump(old(View()))
    {
      if closed {
        return;
      }
      if pumping {
        dirty := true;
        return;
      }
      pumping := true;
      dirty := false;
      EnterDrain();
    }

    method OnSessionEvent(live: Live)
      requires Valid()
      modifies this`queue, this`flushTimer
      ensures Valid() && View() == WatchProtocol.OnSessionEvent(old(View()), live)
    {
      if closed {
        return;
      }
      queue := queue + [live];
      if !flushTimer {
        flushTimer := true;
      }
    }

    method OnFlushTimer()
      requires Valid()
      modifies this
      ensures Valid() && View() == WatchProtocol.OnFlushTimer(old(View()))
    {
      flushTimer := false;
      Pump();
    }

    method OnStartTimer()
      requires Valid()
      modifies this
      ensures Valid() && View() == WatchProtocol.OnStartTimer(old(View()))
    {
      startTimer := false;
      Pump();
    }

    /** A page of the catch-up read arrived. */
    method OnPage(page: Answer)
      requires Valid() && stage.Reading?
      modifies this
      ensures Valid() && View() == WatchProtocol.OnPage(old(View()), page)
    {
      var cursor := stage.cursor;
      if closed {
        stage := CaughtUp;
        return;
      }
      var events := FromCursor(page.events, cursor);
      if |events| > 0 {
        if history.Some? && page.history != history.value {
          toSeq := None;
        }
        PushBatch(events, page.history);
        cursor := toSeq.GetOr(cursor);
      } else {
        var end := Max(page.lastSeq + 1, 0);
        if end < cursor || (history.Some? && page.history != history.value) {
          outbox := outbox + [Push(page.history, end, end, [])];
          toSeq := Some(end);
        }
        history := Some(page.history);
        stage := CaughtUp;
        return;
      }
      stage := if page.hasMore then Reading(cursor) else CaughtUp;
    }

    method OnReadFailed()
      requires Valid() && stage.Reading?
      modifies this`stage
      ensures Valid() && View() == WatchProtocol.OnReadFailed(old(View()))
    {
      stage := CaughtUp;
    }

    method OnCaughtUp()
      requires Valid() && stage.CaughtUp?
      modifies this
      ensures Valid() && View() == WatchProtocol.OnCaughtUp(old(View()))
    {
      repairTried := true;
      if !closed {
        DrainQueue();
      }
      stage := Drained;
    }

    method OnDrained()
      requires Valid() && stage.Drained?
      modifies this
      ensures Valid() && View() == WatchProtocol.OnDrained(old(View()))
    {
      if (dirty || catchUpDue) && !closed {
        dirty := false;
        EnterDrain();
      } else {
        pumping := false;
        stage := Idle;
      }
    }

    method Close()
      requires Valid()
      modifies this`closed, this`queue, this`flushTimer
      ensures Valid() && View() == WatchProtocol.Close(old(View()))
    {
      closed := true;
      queue := [];
      flushTimer := false;
    }
  }
}
