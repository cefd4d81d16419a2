/** What a reader makes of the bubble's events: the entries come back from them, in order and in full. */
module CotReading {
  import opened Options
  import opened CotPump
  import opened CotRuns
  import opened CotTheorems

  /** What the events tell: the entries, and how the run finished, if it did. */
  datatype Story = Story(entries: seq<Entry>, finish: Option<Finish>)

  function Told(entry: Entry, rest: Option<Story>): Option<Story> {
    if rest.None? then None else Some(Story([entry] + rest.value.entries, rest.value.finish))
  }

  function Over(status: Finish, rest: Option<Story>): Option<Story> {
    if rest.None? || rest.value.finish.Some? then None else Some(Story(rest.value.entries, Some(status)))
  }

  /**
   * Reads events behind the reasoning message `last`; None when they are not well formed. A thought is a message
   * opened with a new number, filled and ended; a tool call is opened under the last message, may carry
   * arguments, and is ended; the finish ends the last message, once.
   */
  function Read(events: seq<CotEvent>, last: nat): Option<Story>
    decreases |events|
  {
    if events == [] then Some(Story([], None))
    else
      match events[0]
      case MessageStart(mid) =>
        if mid > last && |events| >= 3 && events[1].MessageContent? && events[1].mid == mid
           && events[2] == MessageEnd(mid)
        then Told(Thinking(events[1].text), Read(events[3..], mid)) else None
      case CallStart(id, name, parent) =>
        if parent != last then None
        else if |events| >= 2 && events[1] == CallEnd(id) then Told(ToolCall(id, name, ""), Read(events[2..], last))
        else if |events| >= 3 && events[1].CallArgs? && events[1].id == id && events[1].args != ""
                && events[2] == CallEnd(id)
        then Told(ToolCall(id, name, events[1].args), Read(events[3..], last)) else None
      case CallResult(id, result) =>
        if result == "" then None else Told(ToolResult(id, result), Read(events[1..], last))
      case ReasoningEnd(mid) =>
        if mid == last && |events| >= 2 && events[1].RunFinished?
        then Over(events[1].status, Read(events[2..], last)) else None
      case _ => None
  }

  /** The whole bubble: it opens the run and the reasoning, and goes on from there. */
  function ReadBubble(wire: seq<CotEvent>): Option<Story> {
    if |wire| >= 2 && wire[0] == RunStarted && wire[1] == ReasoningStart then Read(wire[2..], 0) else None
  }

  /** The entries with something to show. */
  function Shown(entries: seq<Entry>): seq<Entry> {
    if entries == [] then [] else (if Silent(entries[0]) then [] else [entries[0]]) + Shown(entries[1..])
  }

  function AllTold(entries: seq<Entry>, rest: Option<Story>): Option<Story> {
    if rest.None? then None else Some(Story(Shown(entries) + rest.value.entries, rest.value.finish))
  }

  // ---- Reading what was written ----------------------------------------------------------------------------

  /** The events of one entry read as that entry, or as nothing when it shows nothing. */
  lemma EntryReads(last: nat, entry: Entry, i: nat, rest: seq<CotEvent>)
    requires last <= i
    ensures var story := Read(rest, LastAfter(last, entry, i));
      Read(EntryEvents(last, entry, i) + rest, last) == if Silent(entry) then story else Told(entry, story)
  {
    var events := EntryEvents(last, entry, i) + rest;
    match entry
    case Thinking(text) => assert events[3..] == rest;
    case ToolCall(id, name, args) =>
      if args == "" {
        assert EntryEvents(last, entry, i) == [CallStart(id, name, last), CallEnd(id)];
        assert events[2..] == rest;
      } else {
        assert EntryEvents(last, entry, i) == [CallStart(id, name, last), CallArgs(id, args), CallEnd(id)];
        assert events[3..] == rest;
      }
    case ToolResult(id, result) =>
      assert if result == "" then events == rest else events[1..] == rest;
    case OtherEntry => assert events == rest;
  }

  lemma {:induction false} LastWithin(given: seq<Entry>, n: nat)
    requires n <= |given|
    ensures LastOf(given, n) <= n
  {
    if n > 0 {
      LastWithin(given, n - 1);
    }
  }

  lemma EventsFirst(given: seq<Entry>, a: nat, b: nat)
    requires a < b <= |given|
    ensures Events(given, a, b) == EntryEvents(LastOf(given, a), given[a], a) + Events(given, a + 1, b)
  {
    hide EntryEvents, LastOf;
    EventsSplit(given, a, a + 1, b);
    assert Events(given, a, a) == [];
    assert [] + EntryEvents(LastOf(given, a), given[a], a) == EntryEvents(LastOf(given, a), given[a], a);
  }

  lemma Prefixed(entries: seq<Entry>, rest: Option<Story>)
    ensures entries == [] ==> AllTold(entries, rest) == rest
    ensures entries != [] ==>
      AllTold(entries, rest) ==
      if Silent(entries[0]) then AllTold(entries[1..], rest) else Told(entries[0], AllTold(entries[1..], rest))
  {
    if rest.Some? && entries == [] {
      assert [] + rest.value.entries == rest.value.entries;
    } else if rest.Some? {
      assert [] + Shown(entries[1..]) == Shown(entries[1..]);
      assert [entries[0]] + Shown(entries[1..]) + rest.value.entries
          == [entries[0]] + (Shown(entries[1..]) + rest.value.entries);
    }
  }

  /** The events of consecutive entries read as those entries. */
  lemma {:induction false} EventsRead(given: seq<Entry>, a: nat, b: nat, rest: seq<CotEvent>)
    requires a <= b <= |given|
    ensures Read(Events(given, a, b) + rest, LastOf(given, a)) == AllTold(given[a..b], Read(rest, LastOf(given, b)))
    decreases b - a
  {
    hide Read, EntryEvents;
    if a == b {
      assert [] + rest == rest && given[a..b] == [];
      Prefixed([], Read(rest, LastOf(given, b)));
    } else {
      var head, tail := EntryEvents(LastOf(given, a), given[a], a), Events(given, a + 1, b);
      LastWithin(given, a);
      EventsFirst(given, a, b);
      EntryReads(LastOf(given, a), given[a], a, tail + rest);
      EventsRead(given, a + 1, b, rest);
      assert head + tail + rest == head + (tail + rest);
      assert given[a..b][0] == given[a] && given[a..b][1..] == given[a + 1..b];
      hide Silent, Events;
      assert LastOf(given, a + 1) == LastAfter(LastOf(given, a), given[a], a);
      Prefixed(given[a..b], Read(rest, LastOf(given, b)));
    }
  }

  lemma {:induction false} ShownConcat(a: seq<Entry>, b: seq<Entry>)
    ensures Shown(a + b) == Shown(a) + Shown(b)
  {
    if a == [] {
      assert a + b == b;
    } else {
      assert (a + b)[1..] == a[1..] + b;
      ShownConcat(a[1..], b);
    }
  }

  lemma ClosingReads(last: nat, status: Finish, rest: seq<CotEvent>)
    ensures Read(Closing(last, status) + rest, last) == Over(status, Read(rest, last))
  {
    assert (Closing(last, status) + rest)[2..] == rest;
  }

  lemma NothingReads(last: nat)
    ensures Read([], last) == Some(Story([], None))
  {
  }

  lemma AllRead(given: seq<Entry>, a: nat)
    requires a <= |given|
    ensures Read(Events(given, a, |given|), LastOf(given, a)) == Some(Story(Shown(given[a..]), None))
  {
    hide Read, Events, Shown, LastOf;
    EventsRead(given, a, |given|, []);
    NothingReads(LastOf(given, |given|));
    assert Events(given, a, |given|) + [] == Events(given, a, |given|) && given[a..|given|] == given[a..];
    assert Shown(given[a..]) + [] == Shown(given[a..]);
  }

  lemma NoneBefore(given: seq<Entry>)
    ensures LastOf(given, 0) == 0 && given[0..] == given
  {
  }

  /** Entries, the finish, and entries behind it. */
  lemma FinishedReads(given: seq<Entry>, k: nat, status: Finish)
    requires k <= |given|
    ensures Read(Events(given, 0, k) + (Closing(LastOf(given, k), status) + Events(given, k, |given|)), 0)
         == Some(Story(Shown(given), Some(status)))
  {
    hide Read, Events, LastOf, Closing, Shown;
    var tail := Events(given, k, |given|);
    NoneBefore(given);
    AllRead(given, k);
    ClosingReads(LastOf(given, k), status, tail);
    EventsRead(given, 0, k, Closing(LastOf(given, k), status) + tail);
    ShownConcat(given[0..k], given[k..]);
    assert given[0..k] + given[k..] == given;
  }

  lemma BubbleOpens(rest: seq<CotEvent>)
    ensures ReadBubble(PROLOGUE + rest) == Read(rest, 0)
  {
    assert (PROLOGUE + rest)[2..] == rest;
    hide Read;
  }

  /** The script reads as the entries with something to show, and as the finish, if there is one. */
  lemma ScriptReads(given: seq<Entry>, finishedAt: Option<nat>, status: Finish)
    requires finishedAt.Some? ==> finishedAt.value <= |given|
    ensures ReadBubble(Script(given, finishedAt, status))
         == Some(Story(Shown(given), if finishedAt.Some? then Some(status) else None))
  {
    hide Read, ReadBubble, Events, LastOf, Closing, Shown;
    NoneBefore(given);
    match finishedAt
    case None =>
      AllRead(given, 0);
      BubbleOpens(Events(given, 0, |given|));
    case Some(k) =>
      var (close, tail) := (Closing(LastOf(given, k), status), Events(given, k, |given|));
      FinishedReads(given, k, status);
      BubbleOpens(Events(given, 0, k) + (close + tail));
      assert PROLOGUE + Events(given, 0, k) + close + tail == PROLOGUE + (Events(given, 0, k) + (close + tail));
  }

  /**
   * A resting bubble reads back: every recorded entry with something to show, its texts, ids, names, arguments
   * and results, in order, each once; and the finish that was asked for, exactly when the bubble is settled.
   */
  lemma BubbleReadsBack(s: Cot)
    requires Reachable(s) && s.stage.Idle? && s.cotId && !s.disabled
    ensures ReadBubble(s.trace.wire) == Some(Story(Shown(s.trace.given), if s.settled then s.finish else None))
  {
    ReachableOk(s);
    ScriptReads(s.trace.given, s.trace.finishedAt, s.finish.GetOr(Finished));
    hide Script, ReadBubble, Shown;
  }

  /** Without failures it reads as the whole latest snapshot that was accepted. */
  lemma LatestReadsBack(s: Cot, latest: seq<Entry>)
    requires ReachedBy(s, latest) && s.stage.Idle? && s.cotId && !s.disabled
    ensures ReadBubble(s.trace.wire) == Some(Story(Shown(latest), if s.settled then s.finish else None))
  {
    ReachedFollows(s, latest);
    ScriptReads(s.trace.given, s.trace.finishedAt, s.finish.GetOr(Finished));
    hide Script, ReadBubble, Shown;
  }

  // ---- One request at a time -----------------------------------------------------------------------------------

  /** From its head the pump gets to its next request, or to rest. */
  lemma {:induction false} HeadRequests(s: Cot)
    ensures var t := Head(s);
      && s.trace.wire <= t.trace.wire && |t.trace.wire| <= |s.trace.wire| + 50
      && (t.trace.wire != s.trace.wire ==> t.stage.Appending? && t.trace.creates == s.trace.creates)
      && (t.trace.creates != s.trace.creates ==> t.stage.Creating?)
      && (t.trace.creates == s.trace.creates && t.trace.wire == s.trace.wire ==> t.stage.Idle? || t.stage.Appending?)
    decreases s.pending.Some?
  {
    hide Build;
    if s.cotId && !s.disabled && s.pending.Some? && |s.pending.value| > s.sentCount {
      var (events, u) := Record(s.(pending := None), s.pending.value);
      if events == [] {
        HeadRequests(u.(sentCount := |s.pending.value|));
      }
    }
  }

  /** A step requests at most one slice, of at most 50 events, and none while another request is under way. */
  lemma OneRequestAtATime(s: Cot, step: Step)
    requires Reachable(s) && Enabled(s, step)
    ensures var t := Apply(s, step);
      && s.trace.wire <= t.trace.wire && |t.trace.wire| <= |s.trace.wire| + 50
      && (t.trace.wire != s.trace.wire ==> t.stage.Appending? && t.trace.creates == s.trace.creates)
      && (t.trace.creates != s.trace.creates ==> t.stage.Creating?)
      && (!s.stage.Idle? && !step.CreateReturns? && !step.AppendReturns? ==>
            t.stage == s.stage && t.trace.wire == s.trace.wire && t.trace.creates == s.trace.creates)
  {
    ReachableOk(s);
    hide Script, Head, Body;
    HeadRequests(s);
    match step
    case Updating(entries) => HeadRequests(s.(pending := Some(entries)));
    case Finalizing(status) => HeadRequests(s.(finish := Some(status)));
    case Aborting => HeadRequests(s.(finish := Some(Interrupted)));
    case AppendReturns(true) =>
      if s.stage.left == [] {
        match s.stage.next
        case Opened => HeadIsBody(s);
        case Batch(n) => HeadRequests(s.(sentCount := n));
        case Ended => HeadRequests(s.(settled := true));
      }
    case _ =>
  }

  // ---- Failures --------------------------------------------------------------------------------------------------

  /**
   * A failed request ends the bubble: nothing is sent any more. A bubble that was asked to finish, and had not,
   * is completed by one call: at the failure, or when the finish request comes after it.
   */
  lemma FailureEndsTheBubble(s: Cot, step: Step)
    requires Reachable(s) && Enabled(s, step)
    ensures var t := Apply(s, step);
      && (step == CreateReturns(false) || step == AppendReturns(false) ==>
            && t.disabled && t.stage.Idle? && t.trace.wire == s.trace.wire
            && t.trace.completes == s.trace.completes + (if s.cotId && s.finish.Some? && !s.settled then 1 else 0))
      && (s.disabled ==>
            && t.disabled && t.stage.Idle? && t.trace.wire == s.trace.wire && t.trace.creates == s.trace.creates
            && t.trace.completes == s.trace.completes
               + (if (step.Finalizing? || step.Aborting?) && s.cotId && !s.settled then 1 else 0)
            && ((step.Finalizing? || step.Aborting?) && s.cotId ==> t.settled))
  {
    ReachableOk(s);
    hide Script, Head, Body;
  }

  /** What is asked of a bubble is noted: the snapshot, or how it is to finish. Without a bubble, one is opened. */
  lemma AskedIsNoted(s: Cot, step: Step)
    requires Reachable(s) && Enabled(s, step) && !s.disabled && !s.settled
    ensures var t := Apply(s, step);
      && (step.Updating? && !s.stage.Idle? ==> t.pending == Some(step.entries))
      && (step.Updating? && s.stage.Idle? && !s.cotId ==> t.stage.Creating? && t.pending == Some(step.entries))
      && (step.Finalizing? && s.cotId && s.finish.None? ==> t.finish == Some(step.status))
      && (step.Aborting? && s.cotId && s.finish.None? ==> t.finish == Some(Interrupted))
      && (step == CreateReturns(true) ==> t.cotId && t.trace.wire == [RunStarted, ReasoningStart])
  {
    ReachableOk(s);
    hide Script;
    match step
    case Finalizing(status) => HeadRemembersFinish(s.(finish := Some(status)));
    case Aborting => HeadRemembersFinish(s.(finish := Some(Interrupted)));
    case _ =>
  }
}
