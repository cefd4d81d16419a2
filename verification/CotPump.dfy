/**
 * The thinking bubble of one turn: a single-flight pump that creates it, appends its entries and finishes
 * it, while updates and finish requests may arrive at every await.
 */
module CotPump {
  import opened Options

  datatype Entry =
    | Thinking(text: string)
    | ToolCall(id: string, name: string, args: string)
    | ToolResult(id: string, result: string)
    | OtherEntry

  datatype Finish = Finished | Interrupted

  /** Events of the bubble; reasoning messages are named by entry index + 1, and 0 stands for the opening one. */
  datatype CotEvent =
    | RunStarted
    | ReasoningStart
    | MessageStart(mid: nat)
    | MessageContent(mid: nat, text: string)
    | MessageEnd(mid: nat)
    | CallStart(id: string, name: string, parent: nat)
    | CallArgs(id: string, args: string)
    | CallEnd(id: string)
    | CallResult(id: string, result: string)
    | ReasoningEnd(mid: nat)
    | RunFinished(status: Finish)

  const PROLOGUE: seq<CotEvent> := [RunStarted, ReasoningStart]

  const BATCH: nat := 50

  function Closing(last: nat, status: Finish): seq<CotEvent> { [ReasoningEnd(last), RunFinished(status)] }

  /** The events of the entry at index `i`, after the reasoning message `last`. */
  function EntryEvents(last: nat, entry: Entry, i: nat): seq<CotEvent> {
    match entry
    case Thinking(text) => [MessageStart(i + 1), MessageContent(i + 1, text), MessageEnd(i + 1)]
    case ToolCall(id, name, args) =>
      [CallStart(id, name, last)] + (if args != "" then [CallArgs(id, args)] else []) + [CallEnd(id)]
    case ToolResult(id, result) => if result == "" then [] else [CallResult(id, result)]
    case OtherEntry => []
  }

  function LastAfter(last: nat, entry: Entry, i: nat): nat { if entry.Thinking? then i + 1 else last }

  /** What the pump does once an append is through. */
  datatype Then = Opened | Batch(count: nat) | Ended

  /** Where the pump waits: nowhere, for the create call, or for the request of one slice with `left` still to send. */
  datatype Stage = Idle | Creating | Appending(left: seq<CotEvent>, next: Then)

  /** What has been requested so far: events, the entries they are of, and how many of those came before the finish. */
  datatype Trace = Trace(creates: nat, completes: nat, wire: seq<CotEvent>, given: seq<Entry>, finishedAt: Option<nat>)

  datatype Cot = Cot(cotId: bool, sentCount: nat, pending: Option<seq<Entry>>, last: nat, disabled: bool, settled: bool,
                     finish: Option<Finish>, stage: Stage, trace: Trace)

  const FRESH: Cot := Cot(false, 0, None, 0, false, false, None, Idle, Trace(0, 0, [], [], None))

  // ---- The pump ------------------------------------------------------------------------------------------

  /** Request the first slice of at most 50 events. */
  function Issue(s: Cot, events: seq<CotEvent>, next: Then): Cot {
    var n := if |events| < BATCH then |events| else BATCH;
    s.(stage := Appending(events[n..], next), trace := s.trace.(wire := s.trace.wire + events[..n]))
  }

  /** The events of the entries from `a` up to `n` of a snapshot, and the last reasoning message after them. */
  function Build(p: seq<Entry>, a: nat, n: nat, last: nat): (seq<CotEvent>, nat)
    requires a <= n <= |p|
  {
    if n == a then ([], last)
    else
      var (events, l) := Build(p, a, n - 1, last);
      (events + EntryEvents(l, p[n - 1], n - 1), LastAfter(l, p[n - 1], n - 1))
  }

  /** Put the new entries of a snapshot on record and find their events. */
  function Record(s: Cot, p: seq<Entry>): (seq<CotEvent>, Cot)
    requires s.sentCount <= |p|
  {
    var (events, last) := Build(p, s.sentCount, |p|, s.last);
    (events, s.(last := last, trace := s.trace.(given := s.trace.given + p[s.sentCount..])))
  }

  /** The loop's head, once per round. */
  function Head(s: Cot): Cot
    decreases s.pending.Some?, 1
  {
    if s.disabled then s.(stage := Idle)
    else if !s.cotId then s.(stage := Creating, trace := s.trace.(creates := s.trace.creates + 1))
    else Body(s)
  }

  /** Nothing is pending: finish the run when asked to, else rest. */
  function Finishing(s: Cot): Cot {
    if s.finish.Some? && !s.settled then
      Issue(s.(trace := s.trace.(finishedAt := Some(s.sentCount))), Closing(s.last, s.finish.value), Ended)
    else s.(stage := Idle)
  }

  function Body(s: Cot): Cot
    decreases s.pending.Some?, 0
  {
    var t := s.(pending := None);
    if s.pending.Some? && |s.pending.value| > s.sentCount then
      var (events, u) := Record(t, s.pending.value);
      if events != [] then Issue(u, events, Batch(|s.pending.value|))
      else Head(u.(sentCount := |s.pending.value|))
    else Finishing(t)
  }

  /** The pump is over; it starts again for what arrived meanwhile. */
  function Finally(s: Cot): Cot {
    if !s.disabled && (s.pending.Some? || (s.finish.Some? && !s.settled)) then Head(s) else s.(stage := Idle)
  }

  function Failed(s: Cot): Cot {
    var complete := s.cotId && s.finish.Some? && !s.settled;
    s.(disabled := true, stage := Idle, settled := s.settled || complete,
       trace := s.trace.(completes := s.trace.completes + if complete then 1 else 0))
  }

  function Created(s: Cot, ok: bool): Cot {
    if ok then Issue(s.(cotId := true), PROLOGUE, Opened) else Failed(s)
  }

  function Appended(s: Cot, ok: bool): Cot
    requires s.stage.Appending?
  {
    if !ok then Failed(s)
    else if s.stage.left != [] then Issue(s, s.stage.left, s.stage.next)
    else
      match s.stage.next
      case Opened => Body(s)
      case Batch(n) => Head(s.(sentCount := n))
      case Ended => Finally(s.(settled := true))
  }

  function Pump(s: Cot): Cot { if s.stage.Idle? then Head(s) else s }

  // ---- What callers ask ------------------------------------------------------------------------------------

  /** A thinking update with something to show. */
  function Update(s: Cot, entries: seq<Entry>): Cot {
    if s.disabled || s.settled then s else Pump(s.(pending := Some(entries)))
  }

  function CompleteLate(s: Cot): Cot {
    if s.settled then s else s.(settled := true, trace := s.trace.(completes := s.trace.completes + 1))
  }

  function Finalize(s: Cot, status: Finish): Cot {
    if !s.cotId then s
    else if s.disabled then CompleteLate(s)
    else if s.finish.None? then Pump(s.(finish := Some(status)))
    else s
  }

  function Abort(s: Cot): Cot {
    if s.settled then s else Finalize(s, Interrupted)
  }
}

/** The state the manager keeps for a turn, updated in place. */
module CotState {
  import opened Options
  import opened CotPump

  class CotState {
    var cotId: bool
    var sentCount: nat
    var pendingEntries: Option<seq<Entry>>
    var lastReasoning: nat
    var disabled: bool
    var settled: bool
    var finishStatus: Option<Finish>
    var stage: Stage
    var trace: Trace

    function View(): Cot
      reads this
    {
      Cot(cotId, sentCount, pendingEntries, lastReasoning, disabled, settled, finishStatus, stage, trace)
    }

    constructor ()
      ensures View() == FRESH
    {
      cotId, sentCount, pendingEntries, lastReasoning := false, 0, None, 0;
      disabled, settled, finishStatus, stage := false, false, None, Idle;
      trace := Trace(0, 0, [], [], None);
    }

    method Request(events: seq<CotEvent>, next: Then)
      modifies this`stage, this`trace
      ensures View() == Issue(old(View()), events, next)
    {
      var n := if |events| < BATCH then |events| else BATCH;
      stage := Appending(events[n..], next);
      trace := trace.(wire := trace.wire + events[..n]);
    }

    /** The events of the pending entries not sent yet. */
    method Collect(p: seq<Entry>) returns (batch: seq<CotEvent>)
      requires sentCount <= |p|
      modifies this`lastReasoning, this`trace
      ensures (batch, View()) == Record(old(View()), p)
    {
      batch := [];
      for i := sentCount to |p|
        invariant (batch, lastReasoning) == Build(p, sentCount, i, old(lastReasoning))
        invariant trace == old(trace)
      {
        batch := batch + EntryEvents(lastReasoning, p[i], i);
        if p[i].Thinking? {
          lastReasoning := i + 1;
        }
      }
      trace := trace.(given := trace.given + p[sentCount..]);
    }

    /** The pump from the head of its loop, or, when the bubble was just opened, from its body. */
    method Loop(created: bool)
      requires created ==> cotId
      modifies this
      ensures View() == if created then Body(old(View())) else Head(old(View()))
    {
      hide Record, Issue;
      var inBody := created;
      while true
        invariant inBody ==> cotId
        invariant (if inBody then Body(View()) else Head(View())) ==
          if created then Body(old(View())) else Head(old(View()))
        decreases pendingEntries.Some?
      {
        if !inBody && disabled {
          break;
        }
        if !inBody && !cotId {
          stage := Creating;
          trace := trace.(creates := trace.creates + 1);
          return;
        }
        var pending := pendingEntries;
        pendingEntries := None;
        if pending.Some? && |pending.value| > sentCount {
          var batch := Collect(pending.value);
          if |batch| > 0 {
            Request(batch, Batch(|pending.value|));
            return;
          }
          sentCount := |pending.value|;
          inBody := false;
          continue;
        }
        if finishStatus.Some? && !settled {
          trace := trace.(finishedAt := Some(sentCount));
          Request(Closing(lastReasoning, finishStatus.value), Ended);
          return;
        }
        break;
      }
      stage := Idle;
    }

    method Pump()
      modifies this
      ensures View() == CotPump.Pump(old(View()))
    {
      if stage.Idle? {
        Loop(false);
      }
    }

    method Fail()
      modifies this
      ensures View() == Failed(old(View()))
    {
      disabled := true;
      stage := Idle;
      if cotId && finishStatus.Some? && !settled {
        settled := true;
        trace := trace.(completes := trace.completes + 1);
      }
    }

    method OnCreated(ok: bool)
      modifies this
      ensures View() == Created(old(View()), ok)
    {
      if ok {
        cotId := true;
        Request(PROLOGUE, Opened);
      } else {
        Fail();
      }
    }

    method OnAppended(ok: bool)
      requires stage.Appending? && (stage.next.Opened? ==> cotId)
      modifies this
      ensures View() == Appended(old(View()), ok)
    {
      hide Body, Head, Issue;
      if !ok {
        Fail();
      } else if stage.left != [] {
        Request(stage.left, stage.next);
      } else {
        match stage.next
        case Opened => Loop(true);
        case Batch(n) =>
          sentCount := n;
          Loop(false);
        case Ended =>
          settled := true;
          if !disabled && (pendingEntries.Some? || (finishStatus.Some? && !settled)) {
            Loop(false);
          } else {
            stage := Idle;
          }
      }
    }

    method HandleThinkingUpdate(entries: seq<Entry>)
      modifies this
      ensures View() == Update(old(View()), entries)
    {
      if disabled || settled {
        return;
      }
      pendingEntries := Some(entries);
      Pump();
    }

    method FinalizeTurn(status: Finish)
      modifies this
      ensures View() == Finalize(old(View()), status)
    {
      if !cotId {
        return;
      }
      if disabled {
        if !settled {
          settled := true;
          trace := trace.(completes := trace.completes + 1);
        }
        return;
      }
      if finishStatus.None? {
        finishStatus := Some(status);
        Pump();
      }
    }

    method AbortTurn()
      modifies this
      ensures View() == Abort(old(View()))
    {
      if !cotId || settled {
        return;
      }
      if disabled {
        settled := true;
        trace := trace.(completes := trace.completes + 1);
        return;
      }
      if finishStatus.None? {
        finishStatus := Some(Interrupted);
        Pump();
      }
    }
  }
}
