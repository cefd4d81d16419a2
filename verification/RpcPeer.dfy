/** Outgoing calls of one side of the JSON-RPC connection: ids, pending calls, timers and abort listeners. */
module RpcPeer {
  import opened Options
  import opened Decimal

  datatype Verdict = Resolved(value: string) | Rejected(code: Option<string>)

  /** A promise returned by `call`; `verdicts` collects every attempt to settle it. Refused calls get no number. */
  datatype Promise = Promise(number: Option<nat>, timer: bool, listening: bool, verdicts: seq<Verdict>)

  datatype Book = Book(prefix: string, calls: seq<Promise>, pending: map<string, nat>, nextId: nat, closed: bool) {
    function Id(n: nat): string { prefix + Print(n) }
  }

  const CLOSED := Rejected(Some("closed"))
  const ABORTED := Rejected(Some("aborted"))
  const TIMED_OUT := Rejected(Some("timeout"))

  // ---- The transitions ---------------------------------------------------------------------------------

  /** Settle a call and drop its timer and listener. */
  function SettleCall(calls: seq<Promise>, h: nat, v: Verdict): (r: seq<Promise>)
    ensures |r| == |calls|
  {
    if h < |calls| then calls[h := Promise(calls[h].number, false, false, calls[h].verdicts + [v])] else calls
  }

  /** Take an id out of the table and settle the call it stood for; nothing when it is not there. */
  function Taken(s: Book, id: string, v: Verdict): Book {
    if id in s.pending then s.(pending := s.pending - {id}, calls := SettleCall(s.calls, s.pending[id], v)) else s
  }

  /** A new call: refused when the peer is closed or the signal has aborted, failed when the frame cannot be written. */
  function Started(s: Book, aborted: bool, signal: bool, timeout: bool, written: bool): Book {
    if s.closed then s.(calls := s.calls + [Promise(None, false, false, [CLOSED])])
    else if signal && aborted then s.(calls := s.calls + [Promise(None, false, false, [ABORTED])])
    else
      var id := s.Id(s.nextId);
      var t := s.(nextId := s.nextId + 1, calls := s.calls + [Promise(Some(s.nextId), timeout, signal, [])],
                  pending := s.pending[id := |s.calls|]);
      if written then t else Taken(t, id, CLOSED)
  }

  /** A response frame arrives. */
  function Received(s: Book, id: string, v: Verdict): Book {
    if s.closed then s else Taken(s, id, v)
  }

  /** A call's timer or abort listener fires, and is spent. */
  function Fired(s: Book, h: nat, abort: bool): Book
    requires h < |s.calls| && s.calls[h].number.Some?
  {
    var c := s.calls[h];
    var t := s.(calls := s.calls[h := if abort then c.(listening := false) else c.(timer := false)]);
    Taken(t, s.Id(c.number.value), if abort then ABORTED else TIMED_OUT)
  }

  /** Reject the pending calls among the first `n`. */
  function RejectFirst(calls: seq<Promise>, pending: set<nat>, n: nat): (r: seq<Promise>)
    requires n <= |calls|
    ensures |r| == |calls|
  {
    if n == 0 then calls
    else
      var r := RejectFirst(calls, pending, n - 1);
      if n - 1 in pending then SettleCall(r, n - 1, CLOSED) else r
  }

  function Entries(pending: map<string, nat>): set<nat> { set id | id in pending :: pending[id] }

  function Closed(s: Book): Book {
    if s.closed then s
    else s.(closed := true, pending := map[], calls := RejectFirst(s.calls, Entries(s.pending), |s.calls|))
  }

  // ---- The peer itself ---------------------------------------------------------------------------------

  class Peer {
    const prefix: string
    var calls: seq<Promise>
    var pending: map<string, nat>
    var nextId: nat
    var closed: bool

    function View(): Book
      reads this
    {
      Book(prefix, calls, pending, nextId, closed)
    }

    constructor (prefix: string)
      ensures View() == Book(prefix, [], map[], 1, false)
    {
      this.prefix := prefix;
      calls, pending, nextId, closed := [], map[], 1, false;
    }

    method Call(aborted: bool, signal: bool, timeout: bool, written: bool) returns (h: nat)
      modifies this`calls, this`pending, this`nextId
      ensures View() == Started(old(View()), aborted, signal, timeout, written) && h == old(|calls|)
    {
      h := |calls|;
      if closed {
        calls := calls + [Promise(None, false, false, [CLOSED])];
        return;
      }
      if signal && aborted {
        calls := calls + [Promise(None, false, false, [ABORTED])];
        return;
      }
      var number := nextId;
      var id := prefix + Print(number);
      nextId := nextId + 1;
      calls := calls + [Promise(Some(number), timeout, signal, [])];
      pending := pending[id := h];
      if !written {
        pending := pending - {id};
        calls := SettleCall(calls, h, CLOSED);
      }
    }

    /** The response to an id: unknown and late ones are ignored. */
    method Settle(id: string, v: Verdict)
      modifies this`calls, this`pending
      ensures View() == Taken(old(View()), id, v)
    {
      if id !in pending {
        return;
      }
      var h := pending[id];
      pending := pending - {id};
      calls := SettleCall(calls, h, v);
    }

    method Receive(id: string, v: Verdict)
      modifies this`calls, this`pending
      ensures View() == Received(old(View()), id, v)
    {
      if closed {
        return;
      }
      Settle(id, v);
    }

    /** The timer of a call runs out. */
    method OnTimeout(h: nat)
      requires h < |calls| && calls[h].number.Some?
      modifies this`calls, this`pending
      ensures View() == Fired(old(View()), h, false)
    {
      calls := calls[h := calls[h].(timer := false)];
      Settle(prefix + Print(calls[h].number.value), TIMED_OUT);
    }

    /** The signal of a call aborts. */
    method OnAbort(h: nat)
      requires h < |calls| && calls[h].number.Some?
      modifies this`calls, this`pending
      ensures View() == Fired(old(View()), h, true)
    {
      calls := calls[h := calls[h].(listening := false)];
      Settle(prefix + Print(calls[h].number.value), ABORTED);
    }

    method Close()
      modifies this`calls, this`pending, this`closed
      ensures View() == Closed(old(View()))
    {
      if closed {
        return;
      }
      closed := true;
      var entries := Entries(pending);
      pending := map[];
      ghost var before := calls;
      for h := 0 to |calls|
        invariant closed && pending == map[] && |calls| == |before| && calls == RejectFirst(before, entries, h)
      {
        if h in entries {
          calls := SettleCall(calls, h, CLOSED);
        }
      }
    }
  }

  // ---- What is kept ------------------------------------------------------------------------------------

  /**
   * A call is settled at most once; until then it is in the table under its own id, and afterwards it holds no
   * timer or listener.
   */
  ghost predicate CallOk(s: Book, h: nat)
    requires h < |s.calls|
  {
    var c := s.calls[h];
    && |c.verdicts| <= 1
    && (c.number.Some? ==> c.number.value < s.nextId)
    && (c.verdicts == [] ==> c.number.Some?)
    && (c.verdicts == [] ==> s.Id(c.number.value) in s.pending && s.pending[s.Id(c.number.value)] == h)
    && (c.verdicts != [] ==> !c.timer && !c.listening)
  }

  ghost predicate EntryOk(s: Book, id: string)
    requires id in s.pending
  {
    var h := s.pending[id];
    h < |s.calls| && s.calls[h].verdicts == [] && s.calls[h].number.Some? && s.Id(s.calls[h].number.value) == id
  }

  ghost predicate Numbered(calls: seq<Promise>) {
    forall g, h :: 0 <= g < h < |calls| && calls[g].number.Some? && calls[h].number.Some? ==>
      calls[g].number.value < calls[h].number.value
  }

  ghost predicate Inv(s: Book) {
    && (forall h :: 0 <= h < |s.calls| ==> CallOk(s, h))
    && (forall id <- s.pending :: EntryOk(s, id))
    && Numbered(s.calls) && (s.closed ==> s.pending == map[])
  }

  lemma IdsDiffer(s: Book, m: nat, n: nat)
    requires s.Id(m) == s.Id(n)
    ensures m == n
  {
    assert s.Id(m)[|s.prefix|..] == Print(m) && s.Id(n)[|s.prefix|..] == Print(n);
    PrintInjective(m, n);
  }

  /** Taking an id out settles exactly the call that has it. */
  lemma TakenKeeps(s: Book, id: string, v: Verdict)
    requires Inv(s)
    ensures Inv(Taken(s, id, v))
    ensures forall h :: 0 <= h < |s.calls| ==>
      Taken(s, id, v).calls[h].verdicts ==
        if s.calls[h].verdicts == [] && s.calls[h].number.Some? && s.Id(s.calls[h].number.value) == id then [v]
        else s.calls[h].verdicts
  {
    if id in s.pending {
      var t, at := Taken(s, id, v), s.pending[id];
      assert EntryOk(s, id);
      forall h | 0 <= h < |t.calls| ensures CallOk(t, h) && (h != at ==> t.calls[h] == s.calls[h] && CallOk(s, h)) {
        assert CallOk(s, h);
      }
      forall id' | id' in t.pending ensures EntryOk(t, id') {
        assert EntryOk(s, id');
      }
    } else {
      forall h | 0 <= h < |s.calls| && s.calls[h].verdicts == []
        ensures s.calls[h].number.Some? && s.Id(s.calls[h].number.value) != id
      {
        assert CallOk(s, h);
      }
    }
  }

  lemma IssuedKeeps(s: Book, c: Promise)
    requires Inv(s) && !s.closed && c.number == Some(s.nextId) && c.verdicts == []
    ensures Inv(s.(nextId := s.nextId + 1, calls := s.calls + [c], pending := s.pending[s.Id(s.nextId) := |s.calls|]))
  {
    var t := s.(nextId := s.nextId + 1, calls := s.calls + [c], pending := s.pending[s.Id(s.nextId) := |s.calls|]);
    forall id | id in s.pending ensures EntryOk(s, id) && id != s.Id(s.nextId) {
      assert EntryOk(s, id) && CallOk(s, s.pending[id]);
      if id == s.Id(s.nextId) {
        IdsDiffer(s, s.nextId, s.calls[s.pending[id]].number.value);
      }
    }
    forall h | 0 <= h < |t.calls| ensures CallOk(t, h) && (h < |s.calls| ==> t.calls[h] == s.calls[h] && CallOk(s, h)) {
      assert h < |s.calls| ==> CallOk(s, h);
    }
    forall id | id in t.pending ensures EntryOk(t, id) {
      assert id in s.pending ==> EntryOk(s, id);
    }
  }

  lemma RefusedKeeps(s: Book, v: Verdict)
    requires Inv(s)
    ensures Inv(s.(calls := s.calls + [Promise(None, false, false, [v])]))
  {
    var t := s.(calls := s.calls + [Promise(None, false, false, [v])]);
    forall h | 0 <= h < |t.calls| ensures CallOk(t, h) {
      assert h < |s.calls| ==> CallOk(s, h);
    }
    forall id | id in t.pending ensures EntryOk(t, id) {
      assert EntryOk(s, id);
    }
  }

  lemma StartedKeeps(s: Book, aborted: bool, signal: bool, timeout: bool, written: bool)
    requires Inv(s)
    ensures Inv(Started(s, aborted, signal, timeout, written))
  {
    hide Inv, Taken;
    RefusedKeeps(s, CLOSED);
    RefusedKeeps(s, ABORTED);
    if !s.closed && !(signal && aborted) {
      var c := Promise(Some(s.nextId), timeout, signal, []);
      IssuedKeeps(s, c);
      TakenKeeps(s.(nextId := s.nextId + 1, calls := s.calls + [c], pending := s.pending[s.Id(s.nextId) := |s.calls|]),
                 s.Id(s.nextId), CLOSED);
    }
  }

  lemma FiredKeeps(s: Book, h: nat, abort: bool)
    requires Inv(s) && h < |s.calls| && s.calls[h].verdicts == []
    ensures s.calls[h].number.Some? && Inv(Fired(s, h, abort))
    ensures Fired(s, h, abort).calls[h].verdicts == [if abort then ABORTED else TIMED_OUT]
  {
    assert CallOk(s, h);
    var c := s.calls[h];
    var t := s.(calls := s.calls[h := if abort then c.(listening := false) else c.(timer := false)]);
    forall g | 0 <= g < |t.calls| ensures CallOk(t, g) {
      assert CallOk(s, g);
    }
    forall id | id in t.pending ensures EntryOk(t, id) {
      assert EntryOk(s, id);
    }
    TakenKeeps(t, t.Id(c.number.value), if abort then ABORTED else TIMED_OUT);
  }

  lemma {:induction false} RejectFirstIs(calls: seq<Promise>, pending: set<nat>, n: nat, h: nat)
    requires n <= |calls| && h < |calls|
    ensures RejectFirst(calls, pending, n)[h] ==
      if h < n && h in pending then Promise(calls[h].number, false, false, calls[h].verdicts + [CLOSED]) else calls[h]
  {
    if n > 0 {
      RejectFirstIs(calls, pending, n - 1, h);
    }
  }

  /** Closing settles every call still pending. */
  lemma ClosedKeeps(s: Book)
    requires Inv(s)
    ensures Inv(Closed(s))
    ensures forall h :: 0 <= h < |s.calls| ==>
      Closed(s).calls[h].verdicts == if s.calls[h].verdicts == [] then [CLOSED] else s.calls[h].verdicts
  {
    var t := Closed(s);
    forall h | 0 <= h < |s.calls|
      ensures CallOk(t, h) && t.calls[h].number == s.calls[h].number
      ensures t.calls[h].verdicts == if s.calls[h].verdicts == [] then [CLOSED] else s.calls[h].verdicts
    {
      assert CallOk(s, h);
      RejectFirstIs(s.calls, Entries(s.pending), |s.calls|, h);
      if !s.closed && h in Entries(s.pending) {
        var id :| id in s.pending && s.pending[id] == h;
        assert EntryOk(s, id);
      }
    }
  }

  // ---- All runs ----------------------------------------------------------------------------------------

  datatype Step =
    | Calling(aborted: bool, signal: bool, timeout: bool, written: bool)
    | Receiving(id: string, v: Verdict)
    | TimerFires(h: nat)
    | SignalAborts(h: nat)
    | Closing

  /** A timer or listener fires only while it is there. */
  predicate Enabled(s: Book, step: Step) {
    match step
    case TimerFires(h) => h < |s.calls| && s.calls[h].number.Some? && s.calls[h].timer
    case SignalAborts(h) => h < |s.calls| && s.calls[h].number.Some? && s.calls[h].listening
    case _ => true
  }

  function Apply(s: Book, step: Step): Book
    requires Enabled(s, step)
  {
    match step
    case Calling(aborted, signal, timeout, written) => Started(s, aborted, signal, timeout, written)
    case Receiving(id, v) => Received(s, id, v)
    case TimerFires(h) => Fired(s, h, false)
    case SignalAborts(h) => Fired(s, h, true)
    case Closing => Closed(s)
  }

  ghost predicate RunsTo(s: Book, steps: seq<Step>, t: Book)
    decreases steps
  {
    if steps == [] then s == t else Enabled(s, steps[0]) && RunsTo(Apply(s, steps[0]), steps[1..], t)
  }

  ghost predicate Reachable(s: Book) { exists steps :: RunsTo(Book(s.prefix, [], map[], 1, false), steps, s) }

  lemma StepKeeps(s: Book, step: Step)
    requires Inv(s) && Enabled(s, step)
    ensures Inv(Apply(s, step))
  {
    match step
    case Calling(aborted, signal, timeout, written) => StartedKeeps(s, aborted, signal, timeout, written);
    case Receiving(id, v) => TakenKeeps(s, id, v);
    case TimerFires(h) =>
      assert CallOk(s, h);
      FiredKeeps(s, h, false);
    case SignalAborts(h) =>
      assert CallOk(s, h);
      FiredKeeps(s, h, true);
    case Closing => ClosedKeeps(s);
  }

  lemma {:induction false} RunKeeps(s: Book, steps: seq<Step>, t: Book)
    requires Inv(s) && RunsTo(s, steps, t)
    ensures Inv(t)
    decreases steps
  {
    if steps != [] {
      hide Inv, Enabled, Apply;
      StepKeeps(s, steps[0]);
      RunKeeps(Apply(s, steps[0]), steps[1..], t);
    }
  }

  lemma ReachableOk(s: Book)
    requires Reachable(s)
    ensures Inv(s)
  {
    var start := Book(s.prefix, [], map[], 1, false);
    var steps :| RunsTo(start, steps, s);
    RunKeeps(start, steps, s);
  }

  /** Every call is settled at most once; the unsettled ones are exactly those in the table, each under its own id. */
  lemma PendingIsUnsettled(s: Book, h: nat)
    requires Reachable(s) && h < |s.calls|
    ensures |s.calls[h].verdicts| <= 1
    ensures s.calls[h].verdicts == [] <==> exists id :: id in s.pending && s.pending[id] == h
    ensures s.calls[h].verdicts == [] ==> s.calls[h].number.Some? && s.Id(s.calls[h].number.value) in s.pending
    ensures s.calls[h].verdicts != [] ==> !s.calls[h].timer && !s.calls[h].listening
  {
    ReachableOk(s);
    assert CallOk(s, h);
    forall id | id in s.pending && s.pending[id] == h ensures s.calls[h].verdicts == [] {
      assert EntryOk(s, id);
    }
  }

  /** No two calls ever share an id. */
  lemma IdsNeverRepeat(s: Book, g: nat, h: nat)
    requires Reachable(s) && g < h < |s.calls| && s.calls[g].number.Some? && s.calls[h].number.Some?
    ensures s.Id(s.calls[g].number.value) != s.Id(s.calls[h].number.value)
  {
    ReachableOk(s);
    if s.Id(s.calls[g].number.value) == s.Id(s.calls[h].number.value) {
      IdsDiffer(s, s.calls[g].number.value, s.calls[h].number.value);
    }
  }

  /**
   * A response settles its own call and no other; to a settled call, an unknown id or a closed peer it does
   * nothing.
   */
  lemma ResponseReachesItsCall(s: Book, id: string, v: Verdict, h: nat)
    requires Reachable(s) && h < |s.calls|
    ensures var own := s.calls[h].number.Some? && s.Id(s.calls[h].number.value) == id;
      Received(s, id, v).calls[h].verdicts == if own && s.calls[h].verdicts == [] then [v] else s.calls[h].verdicts
    ensures s.calls[h].verdicts != [] && s.calls[h].number.Some? && s.Id(s.calls[h].number.value) == id ==>
      Received(s, id, v) == s
  {
    ReachableOk(s);
    assert CallOk(s, h);
    TakenKeeps(s, id, v);
    if id in s.pending && s.calls[h].number.Some? && s.Id(s.calls[h].number.value) == id {
      assert EntryOk(s, id);
      IdsDiffer(s, s.calls[h].number.value, s.calls[s.pending[id]].number.value);
    }
  }

  lemma OthersStay(s: Book, g: nat, abort: bool, h: nat)
    requires Inv(s) && g < |s.calls| && h < |s.calls| && s.calls[g].number.Some? && s.calls[h].verdicts != []
    requires s.calls[g].timer || s.calls[g].listening
    ensures Fired(s, g, abort).calls[h].verdicts == s.calls[h].verdicts
  {
    assert CallOk(s, g);
  }

  /** A verdict is final: no later step of any kind settles the call again. */
  lemma VerdictIsFinal(s: Book, step: Step, h: nat)
    requires Reachable(s) && Enabled(s, step) && h < |s.calls| && s.calls[h].verdicts != []
    ensures h < |Apply(s, step).calls| && Apply(s, step).calls[h].verdicts == s.calls[h].verdicts
  {
    ReachableOk(s);
    assert CallOk(s, h);
    match step
    case Receiving(id, v) => TakenKeeps(s, id, v);
    case TimerFires(g) => OthersStay(s, g, false, h);
    case SignalAborts(g) => OthersStay(s, g, true, h);
    case Closing => ClosedKeeps(s);
    case _ =>
  }

  /** Once the peer is closed every call has its one verdict. */
  lemma ClosedSettlesAll(s: Book, h: nat)
    requires Reachable(s) && h < |s.calls|
    ensures |Closed(s).calls[h].verdicts| == 1 && Closed(s).pending == map[]
  {
    ReachableOk(s);
    assert CallOk(s, h);
    ClosedKeeps(s);
  }

  // ---- What a call is given, and how it ends ---------------------------------------------------------------

  /**
   * A new call is refused when the peer is closed or its signal has aborted, and fails when its frame cannot be
   * written; otherwise it waits under the next number, with a timer and a listener exactly when it asked for
   * them. No other call is touched.
   */
  lemma NewCallIs(s: Book, aborted: bool, signal: bool, timeout: bool, written: bool)
    requires Reachable(s)
    ensures var (t, h) := (Started(s, aborted, signal, timeout, written), |s.calls|);
      && |t.calls| == h + 1 && t.calls[..h] == s.calls
      && (if s.closed then t.calls[h].verdicts == [Rejected(Some("closed"))] && t.nextId == s.nextId
          else if signal && aborted then t.calls[h].verdicts == [Rejected(Some("aborted"))] && t.nextId == s.nextId
          else
            && t.nextId == s.nextId + 1 && t.calls[h].number == Some(s.nextId)
            && if !written then t.calls[h].verdicts == [Rejected(Some("closed"))] && t.pending == s.pending
               else
                 && t.calls[h] == Promise(Some(s.nextId), timeout, signal, [])
                 && t.pending == s.pending[s.prefix + Print(s.nextId) := h])
  {
    ReachableOk(s);
    if s.Id(s.nextId) in s.pending {
      var g := s.pending[s.Id(s.nextId)];
      assert EntryOk(s, s.Id(s.nextId)) && CallOk(s, g);
      IdsDiffer(s, s.nextId, s.calls[g].number.value);
    }
  }

  /** As long as a call waits nothing takes its timer or its listener away. */
  lemma WaitingKeepsItsTimer(s: Book, step: Step, h: nat)
    requires Reachable(s) && Enabled(s, step) && h < |s.calls|
    ensures h < |Apply(s, step).calls|
    ensures Apply(s, step).calls[h].verdicts == [] ==> Apply(s, step).calls[h] == s.calls[h]
  {
    ReachableOk(s);
    assert CallOk(s, h);
    match step
    case Calling(aborted, signal, timeout, written) => NewCallIs(s, aborted, signal, timeout, written);
    case Closing =>
      ClosedKeeps(s);
      RejectFirstIs(s.calls, Entries(s.pending), |s.calls|, h);
    case TimerFires(g) =>
      assert CallOk(s, g);
      FiredKeeps(s, g, false);
    case SignalAborts(g) =>
      assert CallOk(s, g);
      FiredKeeps(s, g, true);
    case _ =>
  }

  /** A call that waits is settled by its timer as timed out, by its signal as aborted, by the end as closed. */
  lemma EndsAsItShould(s: Book, step: Step, h: nat)
    requires Reachable(s) && Enabled(s, step) && h < |s.calls| && s.calls[h].verdicts == []
    ensures step == TimerFires(h) ==> Apply(s, step).calls[h].verdicts == [Rejected(Some("timeout"))]
    ensures step == SignalAborts(h) ==> Apply(s, step).calls[h].verdicts == [Rejected(Some("aborted"))]
    ensures step == Closing ==> Apply(s, step).calls[h].verdicts == [Rejected(Some("closed"))]
  {
    ReachableOk(s);
    match step
    case TimerFires(g) => if g == h { FiredKeeps(s, h, false); }
    case SignalAborts(g) => if g == h { FiredKeeps(s, h, true); }
    case Closing => ClosedKeeps(s);
    case _ =>
  }
}
