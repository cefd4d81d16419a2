/**
 * One watched session: live events are queued and coalesced, sorted, checked against the last pushed
 * position, repaired by reading when some are missing, and pushed to the node in order.
 *
 * `Watch` is the state of one watch between two points where the code waits; the functions below are
 * what happens at one go from such a point to the next. `WatchState` does the same in place.
 */
module WatchProtocol {
  import opened Options
  import opened Mapper
  import opened EventLog
  import opened Numbers

  datatype Live = Live(event: Event, history: History)

  /** A `session.items` notification: the events numbered `from` to `to - 1`, sent as their items. */
  datatype Push = Push(history: History, from: nat, to: nat, events: seq<Event>) {
    function Items(): seq<Item> { MapEvents(events) }
  }

  /**
   * What was pushed, the history of the last push, and the position the next one starts at (None: open, the
   * next event sets it).
   */
  datatype Line = Line(history: Option<History>, toSeq: Option<nat>, sent: seq<Push>)

  /**
   * Where the pump stands: not running, waiting for a catch-up page from `cursor`, about to resume
   * after the catch-up, or about to decide whether to drain again.
   */
  datatype Stage = Idle | Reading(cursor: nat) | CaughtUp | Drained

  datatype Watch = Watch(
    line: Line,
    closed: bool,
    catchUp: bool,
    repairTried: bool,
    queue: seq<Live>,
    flushArmed: bool,
    startArmed: bool,
    dirty: bool,
    stage: Stage)

  function Opened(since: nat): Watch {
    var line := Line(None, if since > 0 then Some(since) else None, []);
    Watch(line, false, since > 0, false, [], false, since > 0, false, Idle)
  }

  // ---- Sorting -------------------------------------------------------------------------------

  function InsertLive(run: seq<Live>, live: Live): seq<Live> {
    if run == [] || run[|run| - 1].event.seqNo <= live.event.seqNo then run + [live]
    else InsertLive(run[..|run| - 1], live) + [run[|run| - 1]]
  }

  /** A stable sort by seq. */
  function SortBySeq(run: seq<Live>): seq<Live> {
    if run == [] then [] else InsertLive(SortBySeq(run[..|run| - 1]), run[|run| - 1])
  }

  /** Events split into runs of one history: the finished runs, sorted, and the one still growing. */
  datatype Runs = Runs(sorted: seq<Live>, growing: seq<Live>)

  function AddToRuns(runs: Runs, live: Live): Runs {
    if runs.growing != [] && runs.growing[0].history == live.history then Runs(runs.sorted, runs.growing + [live])
    else Runs(runs.sorted + SortBySeq(runs.growing), [live])
  }

  function RunsOf(events: seq<Live>): Runs {
    if events == [] then Runs([], []) else AddToRuns(RunsOf(events[..|events| - 1]), events[|events| - 1])
  }

  /** The finished runs and, sorted too, the one that was still growing. */
  function SortWithinHistories(events: seq<Live>): seq<Live> {
    var runs := RunsOf(events);
    runs.sorted + SortBySeq(runs.growing)
  }

  // ---- Pushing -------------------------------------------------------------------------------

  function EventsOf(run: seq<Live>): seq<Event> { seq(|run|, i requires 0 <= i < |run| => run[i].event) }

  function PushBatch(line: Line, events: seq<Event>, history: History): Line
    requires events != []
  {
    var from := line.toSeq.GetOr(events[0].seqNo);
    var to := events[|events| - 1].seqNo + 1;
    Line(Some(history), Some(to), line.sent + [Push(history, from, to, events)])
  }

  function Flush(line: Line, run: seq<Live>): Line {
    if run == [] then line else PushBatch(line, EventsOf(run), run[0].history)
  }

  /** The position the next event must have to continue what is pushed or gathered. */
  function Tail(line: Line, run: seq<Live>): Option<nat> {
    if run != [] then Some(run[|run| - 1].event.seqNo + 1) else line.toSeq
  }

  /** The event comes from another log than the last push: what is gathered goes out, and the position opens. */
  predicate Turns(line: Line, live: Live) { line.history.Some? && live.history != line.history.value }

  function Turn(line: Line, run: seq<Live>, live: Live): Line { Line(Some(live.history), None, Flush(line, run).sent) }

  predicate IsOld(tail: Option<nat>, live: Live) { tail.Some? && live.event.seqNo + 1 <= tail.value }
  predicate IsGap(tail: Option<nat>, live: Live) { tail.Some? && live.event.seqNo > tail.value }

  /** Going on after an event with what is pushed and gathered now, or stopping to read missing events. */
  datatype Taken = Next(line: Line, run: seq<Live>) | Missing(line: Line)

  /**
   * One event of the sorted queue: gather it, drop it when already pushed; on a gap, stop for a
   * repair, or say so with a new start when a repair was tried already.
   */
  function Take(line: Line, run: seq<Live>, live: Live, repairTried: bool): Taken {
    if Turns(line, live) then Next(Turn(line, run, live), [live])
    else if IsOld(Tail(line, run), live) then Next(line, run)
    else if !IsGap(Tail(line, run), live) then Next(line, run + [live])
    else if repairTried then Next(Flush(line, run).(toSeq := None), [live])
    else Missing(Flush(line, run))
  }

  /** The loop over the sorted queue; `left` is what waits for the repair. */
  datatype Drain = Drain(line: Line, left: seq<Live>)

  function DrainLoop(line: Line, queued: seq<Live>, run: seq<Live>, repairTried: bool): Drain
    decreases queued
  {
    if queued == [] then Drain(Flush(line, run), [])
    else
      match Take(line, run, queued[0], repairTried)
      case Next(line1, run1) => DrainLoop(line1, queued[1..], run1, repairTried)
      case Missing(line1) => Drain(line1, queued)
  }

  function DrainQueue(w: Watch): Watch {
    if w.queue == [] then w
    else
      var d := DrainLoop(w.line, SortWithinHistories(w.queue), [], w.repairTried);
      if d.left == [] then w.(line := d.line, queue := [], repairTried := false)
      else w.(line := d.line, queue := d.left, catchUp := true)
  }

  // ---- The pump ------------------------------------------------------------------------------

  /** Start a drain: read what is missing first when a catch-up is due. */
  function EnterDrain(w: Watch): Watch {
    if w.catchUp then w.(catchUp := false, stage := Reading(w.line.toSeq.GetOr(0)))
    else DrainQueue(w).(stage := Drained)
  }

  function Pump(w: Watch): Watch {
    if w.closed then w
    else if w.stage != Idle then w.(dirty := true)
    else EnterDrain(w.(dirty := false))
  }

  function OnSessionEvent(w: Watch, live: Live): Watch {
    if w.closed then w else w.(queue := w.queue + [live], flushArmed := true)
  }

  function OnFlushTimer(w: Watch): Watch { Pump(w.(flushArmed := false)) }

  function OnStartTimer(w: Watch): Watch { Pump(w.(startArmed := false)) }

  function FromCursor(events: seq<Event>, cursor: nat): seq<Event> {
    if events == [] then []
    else
      var last := events[|events| - 1];
      FromCursor(events[..|events| - 1], cursor) + (if last.seqNo + 1 > cursor then [last] else [])
  }

  /** What a catch-up page adds when it holds nothing new: where the log ends, if the node's position is not in it. */
  function NothingNew(line: Line, page: Answer, cursor: nat): Line {
    var end := Max(page.lastSeq + 1, 0);
    if end < cursor || (line.history.Some? && page.history != line.history.value)
    then Line(Some(page.history), Some(end), line.sent + [Push(page.history, end, end, [])])
    else line.(history := Some(page.history))
  }

  function NewEvents(line: Line, page: Answer, events: seq<Event>): Line
    requires events != []
  {
    var moved := line.history.Some? && page.history != line.history.value;
    PushBatch(if moved then line.(toSeq := None) else line, events, page.history)
  }

  /** A catch-up page arrived. */
  function OnPage(w: Watch, page: Answer): Watch
    requires w.stage.Reading?
  {
    var cursor := w.stage.cursor;
    var events := FromCursor(page.events, cursor);
    if w.closed then w.(stage := CaughtUp)
    else if events == [] then w.(line := NothingNew(w.line, page, cursor), stage := CaughtUp)
    else
      var line := NewEvents(w.line, page, events);
      w.(line := line, stage := if page.hasMore then Reading(line.toSeq.GetOr(cursor)) else CaughtUp)
  }

  function OnReadFailed(w: Watch): Watch
    requires w.stage.Reading?
  {
    w.(stage := CaughtUp)
  }

  /** The pump resumes after its catch-up, failed or not. */
  function OnCaughtUp(w: Watch): Watch
    requires w.stage.CaughtUp?
  {
    var w1 := w.(repairTried := true);
    (if w1.closed then w1 else DrainQueue(w1)).(stage := Drained)
  }

  /** The pump resumes after a drain and drains again when there is a reason to. */
  function OnDrained(w: Watch): Watch
    requires w.stage.Drained?
  {
    if (w.dirty || w.catchUp) && !w.closed then EnterDrain(w.(dirty := false)) else w.(stage := Idle)
  }

  function Close(w: Watch): Watch { w.(closed := true, queue := [], flushArmed := false) }
}
