/** Backward pages: the last turns or items before a position, read in bounded chunks. */
module PagingTail {
  import opened Options
  import opened Mapper
  import opened MapperLaws
  import opened EventLog
  import opened Pages

  // ---- Queries and sources -------------------------------------------------------------------------

  datatype Limits = Limits(
    chunkEvents: nat, maxScanEvents: nat, maxItems: nat, maxBytes: nat, defaultTurns: nat, defaultAfterLimit: nat)

  predicate LimitsOk(l: Limits) {
    l.chunkEvents > 0 && l.maxScanEvents > 0 && l.maxItems > 0 && l.defaultTurns > 0 && l.defaultAfterLimit > 0
  }

  /** The fields a backward page is asked with; each is positive when set. */
  datatype TailQuery = TailQuery(before: Option<nat>, turns: Option<nat>, limit: Option<nat>)

  predicate QueryOk(q: TailQuery) {
    && (q.before.Some? ==> 0 < q.before.value <= MAX_SAFE_INTEGER)
    && (q.turns.Some? ==> q.turns.value > 0)
    && (q.limit.Some? ==> q.limit.value > 0)
  }

  /** The answer of the `t`-th read; a read may fail with an error code. */
  type Source = (nat, Query) -> Result<Answer, string>

  /** The session's log at each read: logs of one history only grow. */
  ghost predicate Timeline(world: nat -> Snapshot) {
    && (forall t :: Numbered(world(t).log, 0) && |world(t).log| <= MAX_SAFE_INTEGER)
    && (forall t, u :: t <= u && world(t).history == world(u).history ==> world(t).log <= world(u).log)
  }

  ghost predicate Honest(source: Source, world: nat -> Snapshot) {
    forall t, q :: source(t, q).Success? ==> Answers(source(t, q).value, q, world(t))
  }

  datatype ItemsPage = ItemsPage(items: seq<Item>, hasMore: bool, history: History, toSeq: nat)

  // ---- What a backward page promises --------------------------------------------------------------

  /** Below which event number a page lies in a log. */
  function Ceiling(q: TailQuery, log: seq<Event>): (m: nat)
    requires QueryOk(q)
    ensures m <= |log|
  {
    if q.before.Some? && q.before.value - 1 < |log| then q.before.value - 1 else |log|
  }

  function TurnsOf(q: TailQuery, l: Limits): nat { q.turns.GetOr(l.defaultTurns) }

  function LimitOf(q: TailQuery, l: Limits): (n: nat)
    ensures QueryOk(q) && LimitsOk(l) ==> n > 0
  {
    var asked := q.limit.GetOr(l.maxItems);
    if asked < l.maxItems then asked else l.maxItems
  }

  predicate TurnsMode(q: TailQuery) { q.turns.Some? || q.limit.None? }

  /** Whole events, the newest ones below the ceiling; no more beyond them when the page says so. */
  ghost predicate TailBlock(q: TailQuery, log: seq<Event>, page: ItemsPage)
    requires QueryOk(q)
  {
    var m := Ceiling(q, log);
    && page.toSeq == m
    && (exists d :: 0 <= d <= m && page.items == ItemsIn(log, d, m))
    && (!page.hasMore ==> page.items == ItemsIn(log, 0, m))
  }

  /** A page fits its byte budget or is one event; beyond its item limit it has only items of its first event. */
  ghost predicate TailBounded(q: TailQuery, l: Limits, size: Item -> nat, items: seq<Item>)
    requires QueryOk(q) && LimitsOk(l)
  {
    && (Size(items, size) <= l.maxBytes
        || (items != [] && forall i :: 0 <= i < |items| ==> items[i].seqNo == items[0].seqNo))
    && var n := if q.limit.Some? && q.limit.value < l.maxItems then q.limit.value else l.maxItems;
    |items| > n ==> items[|items| - n].seqNo == items[0].seqNo
  }

  /**
   * What the query asks for, of all items: the last so many turns, each beginning with the person's items; or,
   * with a limit alone, the fewest whole events with that many items. All of them when there are not so many.
   */
  ghost predicate AskedFor(q: TailQuery, l: Limits, older: seq<Item>, items: seq<Item>)
    requires QueryOk(q) && LimitsOk(l)
  {
    if q.turns.None? && q.limit.Some? then
      var n := if q.limit.value < l.maxItems then q.limit.value else l.maxItems;
      if |older + items| <= n then older == []
      else
        && |items| >= n && items != [] && items[|items| - n].seqNo == items[0].seqNo
        && (older != [] ==> older[|older| - 1].seqNo != items[0].seqNo)
    else
      var turns := if q.turns.Some? then q.turns.value else l.defaultTurns;
      if PersonRuns(older + items, |older + items|) < turns then older == []
      else
        && items != [] && items[0].person && (older != [] ==> !older[|older| - 1].person)
        && PersonRuns(items, |items|) == turns
  }

  /** The items are no more than a page may hold; with a limit alone, whole events decide. */
  ghost predicate PageHolds(q: TailQuery, l: Limits, size: Item -> nat, items: seq<Item>) {
    && Size(items, size) <= l.maxBytes
    && (q.turns.Some? ==> |items| <= if q.limit.Some? && q.limit.value < l.maxItems then q.limit.value else l.maxItems)
    && (q.limit.None? ==> |items| <= l.maxItems)
  }

  /** The items collected once everything from event `c` on has been read. */
  function Collected(q: TailQuery, log: seq<Event>, c: nat): seq<Item>
    requires QueryOk(q) && c <= Ceiling(q, log)
  {
    ItemsIn(log, c, Ceiling(q, log))
  }

  /** Enough has been read, with older events known to exist. */
  predicate Enough(q: TailQuery, l: Limits, items: seq<Item>) {
    if TurnsMode(q) then |TurnStarts(items, true, |items|)| >= TurnsOf(q, l) else |items| >= LimitOf(q, l)
  }

  /** Why a scan ended: the log's beginning, enough was read, a work cap, or another log took its place. */
  datatype Stop = Began | ReadEnough | CapHit | Replaced

  /** The reason is true of what `n` reads of one log found, which is everything from event `c` on. */
  ghost predicate StopsFor(stop: Stop, q: TailQuery, l: Limits, size: Item -> nat, world: nat -> Snapshot, c: nat,
        n: nat)
    requires QueryOk(q) && c <= Ceiling(q, world(0).log)
  {
    var log := world(0).log;
    && (forall u :: 0 <= u < n ==> world(u).history == world(0).history)
    && match stop
    case Began => c == 0
    case ReadEnough => c > 0 && Enough(q, l, Collected(q, log, c))
    case CapHit =>
      && c > 0 && !Enough(q, l, Collected(q, log, c))
      && var items := Collected(q, log, c);
      Ceiling(q, log) - c >= l.maxScanEvents || Size(items, size) >= l.maxBytes || |items| >= l.maxItems * 4
    case Replaced => c > 0 && world(n).history != world(0).history
  }

  /** Where the wanted items start among all items below the ceiling. */
  function Wanted(q: TailQuery, l: Limits, all: seq<Item>): (start: nat)
    requires QueryOk(q) && LimitsOk(l)
    ensures start <= |all|
  {
    if TurnsMode(q) then LastTurns(all, TurnsOf(q, l))
    else if |all| <= LimitOf(q, l) then 0
    else EventStart(all, |all| - LimitOf(q, l))
  }

  /** The wanted items are no more than a page may hold. */
  ghost predicate WantedFits(q: TailQuery, l: Limits, size: Item -> nat, all: seq<Item>)
    requires QueryOk(q) && LimitsOk(l)
  {
    var start := Wanted(q, l, all);
    Size(all[start..], size) <= l.maxBytes && (TurnsMode(q) ==> |all| - start <= LimitOf(q, l))
  }

  lemma ReadAt(source: Source, world: nat -> Snapshot, t: nat, query: Query, res: Answer)
    requires Honest(source, world) && source(t, query) == Success(res)
    ensures Answers(res, query, world(t)) && res.history == world(t).history && res.lastSeq == |world(t).log| - 1
  {
    assert Answers(source(t, query).value, query, world(t));
  }

  lemma ReadLog(world: nat -> Snapshot, t: nat, u: nat)
    requires Timeline(world) && t <= u
    ensures Numbered(world(t).log, 0) && Numbered(world(u).log, 0) && |world(t).log| <= MAX_SAFE_INTEGER
    ensures world(t).history == world(u).history ==> world(t).log <= world(u).log
  {
  }

  // ---- Scanning -----------------------------------------------------------------------------------

  /** Everything from event `c` up to the ceiling of the first log read has been collected. */
  ghost predicate Scanned(q: TailQuery, log: seq<Event>, c: nat, collected: seq<Item>, scanned: nat)
    requires QueryOk(q)
  {
    c <= Ceiling(q, log) && collected == Collected(q, log, c) && scanned == Ceiling(q, log) - c
  }

  /** A chunk just below `c`, read from a later state of the same log, extends what is collected. */
  lemma ChunkExtends(q: TailQuery, first: Snapshot, later: Snapshot, c: nat, collected: seq<Item>, scanned: nat,
        a: Answer, limit: nat)
    requires QueryOk(q) && Scanned(q, first.log, c, collected, scanned) && first.log <= later.log
    requires Answers(a, Before(c, limit), later) && Numbered(later.log, 0)
    ensures |a.events| <= c && forall i :: 0 <= i < |a.events| ==> a.events[i].seqNo == c - |a.events| + i
    ensures Scanned(q, first.log, c - |a.events|, MapEvents(a.events) + collected, scanned + |a.events|)
    ensures a.hasMore <==> c - |a.events| > 0
    ensures c > 0 ==> a.events != []
  {
    hide MapEvent, Answers;
    BackwardAnswer(a, c, limit, later);
    var d := c - |a.events|;
    SliceOfGrown(first.log, later.log, d, c);
    ItemsInSplit(first.log, d, c, Ceiling(q, first.log));
  }

  /** The first chunk lies just below the ceiling. */
  lemma FirstChunk(q: TailQuery, first: Snapshot, cursor: nat, a: Answer, limit: nat)
    requires QueryOk(q) && |first.log| <= MAX_SAFE_INTEGER && Numbered(first.log, 0)
    requires cursor == (if q.before.Some? then q.before.value - 1 else MAX_SAFE_INTEGER)
    requires Answers(a, Before(cursor, limit), first)
    ensures |a.events| <= Ceiling(q, first.log) <= cursor
    ensures forall i :: 0 <= i < |a.events| ==> a.events[i].seqNo == Ceiling(q, first.log) - |a.events| + i
    ensures Scanned(q, first.log, Ceiling(q, first.log) - |a.events|, MapEvents(a.events), |a.events|)
    ensures a.hasMore <==> Ceiling(q, first.log) - |a.events| > 0
    ensures Ceiling(q, first.log) > 0 ==> a.events != []
  {
    hide MapEvent, Answers;
    BackwardAnswer(a, cursor, limit, first);
  }

  method Below(events: seq<Event>, cursor: nat) returns (below: seq<Event>)
    ensures (forall i :: 0 <= i < |events| ==> events[i].seqNo < cursor) ==> below == events
  {
    below := [];
    for i := 0 to |events|
      invariant (forall k :: 0 <= k < i ==> events[k].seqNo < cursor) ==> below == events[..i]
    {
      if events[i].seqNo < cursor {
        below := below + [events[i]];
      }
    }
  }

  method MapAll(events: seq<Event>) returns (items: seq<Item>)
    ensures items == MapEvents(events)
  {
    hide MapEvent;
    items := [];
    for i := 0 to |events|
      invariant items == MapEvents(events[..i])
    {
      assert events[..i + 1][..i] == events[..i];
      items := items + MapEvent(events[i]);
    }
    assert events[..|events|] == events;
  }

  /** Put the items of a chunk in front of those collected. */
  method AddChunk(chunk: seq<Event>, cursor: nat, collected: seq<Item>, scanned: nat, bytes: nat, size: Item -> nat)
    returns (events: seq<Event>, collected': seq<Item>, scanned': nat, bytes': nat)
    requires forall i :: 0 <= i < |chunk| ==> chunk[i].seqNo < cursor
    requires bytes == Size(collected, size)
    ensures events == chunk && collected' == MapEvents(chunk) + collected
    ensures scanned' == scanned + |chunk| && bytes' == Size(collected', size)
  {
    events := Below(chunk, cursor);
    scanned' := scanned + |events|;
    var items := MapAll(events);
    var more := TotalSize(items, size);
    SizeConcat(items, collected, size);
    bytes' := bytes + more;
    collected' := items + collected;
  }

  /** What the scan leaves behind. */
  datatype Scan = Scan(first: Answer, collected: seq<Item>, olderExists: bool)

  /** One read of the scan, the first or a later one. */
  lemma Extend(source: Source, q: TailQuery, l: Limits, world: nat -> Snapshot, t: nat,
               cursor: nat, collected: seq<Item>, scanned: nat, first: Option<Answer>, res: Answer) returns (d: nat)
    requires LimitsOk(l) && QueryOk(q) && Timeline(world) && Honest(source, world)
    requires source(t, Before(cursor, l.chunkEvents)) == Success(res)
    requires first.None? ==> t == 0 && collected == [] && scanned == 0
    requires first.None? ==> cursor == if q.before.Some? then q.before.value - 1 else MAX_SAFE_INTEGER
    requires first.Some? ==> Scanned(q, world(0).log, cursor, collected, scanned) && cursor > 0
    requires first.Some? ==> first.value.history == world(0).history == res.history
    ensures first.None? ==> res.history == world(0).history && res.lastSeq == |world(0).log| - 1
    ensures Scanned(q, world(0).log, d, MapEvents(res.events) + collected, scanned + |res.events|)
    ensures res.hasMore <==> d > 0
    ensures forall i :: 0 <= i < |res.events| ==> res.events[i].seqNo < cursor
    ensures res.events != [] ==> res.events[0].seqNo == d < cursor
    ensures res.events == [] ==> d == 0
  {
    hide *;
    ReadAt(source, world, t, Before(cursor, l.chunkEvents), res);
    ReadLog(world, 0, t);
    if first.None? {
      FirstChunk(q, world(0), cursor, res, l.chunkEvents);
      d := Ceiling(q, world(0).log) - |res.events|;
      assert MapEvents(res.events) + [] == MapEvents(res.events);
    } else {
      assert world(0).history == world(t).history;
      ChunkExtends(q, world(0), world(t), cursor, collected, scanned, res, l.chunkEvents);
      d := cursor - |res.events|;
    }
  }

  method HasEnough(q: TailQuery, l: Limits, items: seq<Item>) returns (enough: bool)
    ensures enough == Enough(q, l, items)
  {
    if TurnsMode(q) {
      var starts := FindTurnStarts(items, true);
      enough := |starts| >= TurnsOf(q, l);
    } else {
      enough := |items| >= LimitOf(q, l);
    }
  }

  /**
   * The scan, one chunk further back a round. What it leaves is everything from event `c` on, after `n`
   * reads of one log, and `stop` says why it went no further.
   */
  method ScanBack(source: Source, q: TailQuery, l: Limits, size: Item -> nat, ghost world: nat -> Snapshot)
    returns (r: Result<Scan, string>, ghost c: nat, ghost stop: Stop, ghost n: nat)
    requires LimitsOk(l) && QueryOk(q) && Timeline(world) && Honest(source, world)
    ensures r.Failure? ==> exists t, query :: source(t, query) == Failure(r.error)
    ensures r.Success? ==>
      var log := world(0).log;
      && c <= Ceiling(q, log) && r.value.collected == Collected(q, log, c)
      && (r.value.olderExists <==> c > 0)
      && r.value.first.history == world(0).history && r.value.first.lastSeq == |log| - 1
      && StopsFor(stop, q, l, size, world, c, n)
  {
    hide MapEvent, MapEvents, Timeline, Answers, Enough;
    var cursor: nat := if q.before.Some? then q.before.value - 1 else MAX_SAFE_INTEGER;
    var collected: seq<Item> := [];
    var first: Option<Answer> := None;
    var scanned: nat, bytes: nat, t: nat := 0, 0, 0;
    ghost var log := world(0).log;
    while true
      invariant first.None? ==> t == 0 && collected == [] && scanned == 0 && bytes == 0
      invariant first.None? ==> cursor == if q.before.Some? then q.before.value - 1 else MAX_SAFE_INTEGER
      invariant first.Some? ==> Scanned(q, log, cursor, collected, scanned) && cursor > 0
      invariant first.Some? ==> bytes == Size(collected, size)
      invariant forall u :: 0 <= u < t ==> world(u).history == world(0).history
      invariant first.Some? ==> first.value.history == world(0).history && first.value.lastSeq == |log| - 1
      decreases cursor
    {
      var read := source(t, Before(cursor, l.chunkEvents));
      if read.Failure? {
        return Failure(read.error), 0, Began, t;
      }
      var res := read.value;
      ReadAt(source, world, t, Before(cursor, l.chunkEvents), res);
      if first.Some? && res.history != first.value.history {
        return Success(Scan(first.value, collected, true)), cursor, Replaced, t;
      }
      ghost var d := Extend(source, q, l, world, t, cursor, collected, scanned, first, res);
      if first.None? {
        first := Some(res);
      }
      var events;
      events, collected, scanned, bytes := AddChunk(res.events, cursor, collected, scanned, bytes, size);
      t := t + 1;
      var olderExists := res.hasMore && |events| > 0;
      if !olderExists {
        return Success(Scan(first.value, collected, false)), 0, Began, t;
      }
      cursor := events[0].seqNo;
      var enough := HasEnough(q, l, collected);
      if enough {
        return Success(Scan(first.value, collected, true)), cursor, ReadEnough, t;
      }
      if scanned >= l.maxScanEvents || bytes >= l.maxBytes || |collected| >= l.maxItems * 4 {
        return Success(Scan(first.value, collected, true)), cursor, CapHit, t;
      }
    }
  }

  // ---- The page ------------------------------------------------------------------------------------

  /** A page starts at the wanted turn, or, when that is too far back, at the event that reaches the item limit. */
  predicate PageStartsAt(q: TailQuery, l: Limits, items: seq<Item>, olderExists: bool, start: nat)
    requires LimitsOk(l) && QueryOk(q)
  {
    var starts := TurnStarts(items, olderExists, |items|);
    var turn := if TurnsMode(q) && |starts| >= TurnsOf(q, l) then starts[|starts| - TurnsOf(q, l)] else 0;
    && (|items| - turn <= LimitOf(q, l) ==> start == turn)
    && (|items| - turn > LimitOf(q, l) ==> start == EventStart(items, |items| - LimitOf(q, l)))
  }

  /** Where a page of the collected items starts, before its size is looked at. */
  method PageStart(q: TailQuery, l: Limits, collected: seq<Item>, olderExists: bool) returns (start: nat)
    requires LimitsOk(l) && QueryOk(q) && Coherent(collected)
    ensures start <= |collected| && Boundary(collected, start) && (collected != [] ==> start < |collected|)
    ensures |collected| - start > LimitOf(q, l) ==>
      collected[|collected| - LimitOf(q, l)].seqNo == collected[start].seqNo
    ensures PageStartsAt(q, l, collected, olderExists, start)
  {
    hide TurnStarts;
    start := 0;
    if TurnsMode(q) {
      var starts := FindTurnStarts(collected, olderExists);
      if |starts| >= TurnsOf(q, l) {
        start := starts[|starts| - TurnsOf(q, l)];
        assert start in starts;
        TurnStartsAre(collected, olderExists, |collected|, start);
        TurnStartIsBoundary(collected, start);
      }
    }
    if |collected| >= LimitOf(q, l) && start < |collected| - LimitOf(q, l) {
      start := |collected| - LimitOf(q, l);
    }
    if start > 0 && start < |collected| {
      ghost var at := start;
      start := FindEventStart(collected, start);
      if Boundary(collected, at) {
        EventStartUnique(collected, at, at);
      }
    }
  }

  /** What was collected, and what older events hold, make up everything below the ceiling. */
  lemma AllBelow(q: TailQuery, log: seq<Event>, c: nat)
    requires QueryOk(q) && Numbered(log, 0) && c <= Ceiling(q, log)
    ensures Collected(q, log, 0) == ItemsIn(log, 0, c) + Collected(q, log, c)
    ensures Coherent(Collected(q, log, c)) && Boundary(Collected(q, log, 0), |ItemsIn(log, 0, c)|)
  {
    hide MapEvent, MapEvents;
    var m := Ceiling(q, log);
    ItemsInSplit(log, 0, c, m);
    SliceNumbered(log, c, m);
    SliceNumbered(log, 0, c);
    MapEventsCoherent(log[c..m], c);
    MapEventsOrdered(log[..c], 0);
    MapEventsOrdered(log[c..m], c);
    assert log[0..c] == log[..c];
  }

  /** When the scan read enough, the page's turns start where the wanted turns start among all items. */
  lemma WantedTurns(q: TailQuery, l: Limits, older: seq<Item>, items: seq<Item>, olderExists: bool)
    requires QueryOk(q) && LimitsOk(l) && TurnsMode(q)
    requires if olderExists then Enough(q, l, items) else older == []
    ensures var starts := TurnStarts(items, olderExists, |items|);
      Wanted(q, l, older + items) ==
        |older| + if |starts| >= TurnsOf(q, l) then starts[|starts| - TurnsOf(q, l)] else 0
  {
    if olderExists {
      LastTurnsOfSuffix(older, items, TurnsOf(q, l));
    } else {
      assert older + items == items;
    }
  }

  /** The newest `limit` items start at the same event, whether older items are known or not. */
  lemma NewestItems(older: seq<Item>, items: seq<Item>, limit: nat)
    requires 0 < limit <= |items| && Boundary(older + items, |older|)
    requires older != [] || limit < |items|
    ensures EventStart(older + items, |older + items| - limit) ==
      |older| + if |items| > limit then EventStart(items, |items| - limit) else 0
  {
    EventStartOfSuffix(older, items, |items| - limit);
  }

  lemma WantedItems(q: TailQuery, l: Limits, older: seq<Item>, items: seq<Item>, olderExists: bool)
    requires QueryOk(q) && LimitsOk(l) && !TurnsMode(q) && Boundary(older + items, |older|)
    requires if olderExists then Enough(q, l, items) else older == []
    ensures Wanted(q, l, older + items) ==
      |older| + if |items| > LimitOf(q, l) then EventStart(items, |items| - LimitOf(q, l)) else 0
  {
    hide EventStart, LimitOf, Boundary, MapEvent, MapEvents, QueryOk, LimitsOk, TurnsOf;
    var limit := LimitOf(q, l);
    if older == [] {
      assert older + items == items;
    } else {
      NewestItems(older, items, limit);
    }
  }

  lemma WantedIsCollected(q: TailQuery, l: Limits, older: seq<Item>, items: seq<Item>, olderExists: bool, start: nat,
        size: Item -> nat)
    requires QueryOk(q) && LimitsOk(l) && Boundary(older + items, |older|) && start <= |items|
    requires if olderExists then Enough(q, l, items) else older == []
    requires PageStartsAt(q, l, items, olderExists, start) && WantedFits(q, l, size, older + items)
    ensures (older + items)[Wanted(q, l, older + items)..] == items[start..]
  {
    hide Wanted, TurnStarts, EventStart, Enough, Boundary, LimitOf, TurnsOf, Size, MapEvents, QueryOk, LimitsOk;
    if TurnsMode(q) {
      WantedTurns(q, l, older, items, olderExists);
    } else {
      WantedItems(q, l, older, items, olderExists);
    }
    assert Wanted(q, l, older + items) == |older| + start;
  }

  lemma {:induction false} OrderedSeqs(items: seq<Item>, i: nat, j: nat)
    requires Coherent(items) && i <= j < |items|
    ensures items[i].seqNo <= items[j].seqNo
  {
    if i < j {
      OrderedSeqs(items, i, j - 1);
    }
  }

  lemma {:induction false} SameEvent(items: seq<Item>, index: nat, i: nat)
    requires index < |items| && EventStart(items, index) <= i <= index
    ensures items[i].seqNo == items[index].seqNo
  {
    if i < index {
      SameEvent(items, index - 1, i);
    }
  }

  lemma TurnsAreWanted(q: TailQuery, l: Limits, older: seq<Item>, items: seq<Item>)
    requires QueryOk(q) && LimitsOk(l) && TurnsMode(q) && AskedFor(q, l, older, items)
    ensures Wanted(q, l, older + items) == |older|
  {
    var all := older + items;
    assert all[|older|..] == items;
    hide TurnStarts, PersonRuns, LastTurns;
    if PersonRuns(all, |all|) < TurnsOf(q, l) {
      LastTurnsHold(all, TurnsOf(q, l));
    } else {
      LastTurnsAreOne(all, TurnsOf(q, l), |older|);
    }
  }

  lemma ItemsAreWanted(q: TailQuery, l: Limits, older: seq<Item>, items: seq<Item>)
    requires QueryOk(q) && LimitsOk(l) && !TurnsMode(q) && Coherent(older + items) && AskedFor(q, l, older, items)
    ensures Wanted(q, l, older + items) == |older|
  {
    hide EventStart, TurnStarts, PersonRuns, Coherent;
    var all, start := older + items, |older|;
    if |all| > LimitOf(q, l) {
      var at := |all| - LimitOf(q, l);
      assert all[at] == items[|items| - LimitOf(q, l)] && all[start] == items[0];
      forall j | start <= j <= at ensures all[j].seqNo == all[at].seqNo {
        OrderedSeqs(all, start, j);
        OrderedSeqs(all, j, at);
      }
      EventStartUnique(all, at, start);
    }
  }

  /** There is no other choice of items that a query asks for than the wanted ones. */
  lemma AskedIsWanted(q: TailQuery, l: Limits, older: seq<Item>, items: seq<Item>)
    requires QueryOk(q) && LimitsOk(l) && Coherent(older + items) && AskedFor(q, l, older, items)
    ensures Wanted(q, l, older + items) == |older|
  {
    hide Wanted, AskedFor, Coherent;
    if TurnsMode(q) {
      TurnsAreWanted(q, l, older, items);
    } else {
      ItemsAreWanted(q, l, older, items);
    }
  }

  lemma TurnsAreAsked(q: TailQuery, l: Limits, older: seq<Item>, items: seq<Item>)
    requires QueryOk(q) && LimitsOk(l) && TurnsMode(q) && |older| == Wanted(q, l, older + items)
    ensures AskedFor(q, l, older, items)
  {
    var all := older + items;
    assert all[|older|..] == items;
    hide TurnStarts, PersonRuns, LastTurns;
    LastTurnsHold(all, TurnsOf(q, l));
  }

  lemma ItemsAreAsked(q: TailQuery, l: Limits, older: seq<Item>, items: seq<Item>)
    requires QueryOk(q) && LimitsOk(l) && !TurnsMode(q) && |older| == Wanted(q, l, older + items)
    ensures AskedFor(q, l, older, items)
  {
    hide TurnStarts, PersonRuns;
    var all := older + items;
    if |all| > LimitOf(q, l) {
      var at := |all| - LimitOf(q, l);
      SameEvent(all, at, |older|);
      hide EventStart;
      assert all[at] == items[|items| - LimitOf(q, l)] && all[|older|] == items[0];
      assert older != [] ==> all[|older| - 1] == older[|older| - 1];
    }
  }

  /** And the wanted items are asked for. */
  lemma WantedIsAsked(q: TailQuery, l: Limits, all: seq<Item>)
    requires QueryOk(q) && LimitsOk(l)
    ensures var w := Wanted(q, l, all); AskedFor(q, l, all[..w], all[w..])
  {
    var w := Wanted(q, l, all);
    assert all[..w] + all[w..] == all;
    hide Wanted, AskedFor;
    if TurnsMode(q) {
      TurnsAreAsked(q, l, all[..w], all[w..]);
    } else {
      ItemsAreAsked(q, l, all[..w], all[w..]);
    }
  }

  lemma NoItems()
    ensures MapEvents([]) == []
  {
  }

  lemma PageIsWanted(q: TailQuery, l: Limits, size: Item -> nat, log: seq<Event>, c: nat, from: nat, start: nat)
    requires LimitsOk(l) && QueryOk(q) && Numbered(log, 0) && c <= Ceiling(q, log)
    requires c > 0 ==> Enough(q, l, Collected(q, log, c))
    requires from <= start <= |Collected(q, log, c)| && Boundary(Collected(q, log, c), from)
    requires PageStartsAt(q, l, Collected(q, log, c), c > 0, from)
    requires forall k :: from <= k < start && Boundary(Collected(q, log, c), k) ==>
      !Fits(Collected(q, log, c), k, l.maxBytes, size)
    requires WantedFits(q, l, size, Collected(q, log, 0))
    ensures var all := Collected(q, log, 0); Collected(q, log, c)[start..] == all[Wanted(q, l, all)..]
  {
    hide MapEvent, MapEvents;
    AllBelow(q, log, c);
    var older, items := ItemsIn(log, 0, c), Collected(q, log, c);
    assert c == 0 ==> older == [] by { assert log[0..0] == []; assert MapEvents([]) == [] by { NoItems(); } }
    WantedIsCollected(q, l, older, items, c > 0, from, size);
    assert Size(items[from..], size) <= l.maxBytes;
  }

  lemma PageIsBounded(q: TailQuery, l: Limits, size: Item -> nat, collected: seq<Item>, from: nat, start: nat)
    requires LimitsOk(l) && QueryOk(q) && from <= start <= |collected| && Boundary(collected, start)
    requires Fits(collected, start, l.maxBytes, size)
    requires |collected| - from > LimitOf(q, l) ==>
      collected[|collected| - LimitOf(q, l)].seqNo == collected[from].seqNo
    requires Coherent(collected)
    ensures TailBounded(q, l, size, collected[start..])
  {
    hide EventStart, Boundary, Size;
    var items := collected[start..];
    if Size(items, size) > l.maxBytes {
      forall i | 0 <= i < |items| ensures items[i].seqNo == items[0].seqNo {
        SameEvent(collected, |collected| - 1, start + i);
        SameEvent(collected, |collected| - 1, start);
      }
    }
    if |items| > LimitOf(q, l) {
      var at := |collected| - LimitOf(q, l);
      assert items[|items| - LimitOf(q, l)] == collected[at];
      OrderedSeqs(collected, from, start);
      OrderedSeqs(collected, start, at);
    }
  }

  lemma PageIsBlock(q: TailQuery, log: seq<Event>, c: nat, page: ItemsPage, start: nat)
    requires QueryOk(q) && c <= Ceiling(q, log) && page.toSeq == Ceiling(q, log)
    requires start <= |Collected(q, log, c)| && Boundary(Collected(q, log, c), start)
    requires page.items == Collected(q, log, c)[start..] && page.hasMore == (start > 0 || c > 0)
    ensures TailBlock(q, log, page)
  {
    hide MapEvent, MapEvents;
    var m := Ceiling(q, log);
    var k := BoundaryIsBetweenEvents(log[c..m], start);
    assert log[c..m][k..] == log[c + k..m];
    assert page.items == ItemsIn(log, c + k, m);
    assert !page.hasMore ==> page.items == Collected(q, log, 0);
  }

  lemma HeldIsFitting(q: TailQuery, l: Limits, size: Item -> nat, older: seq<Item>, items: seq<Item>)
    requires QueryOk(q) && LimitsOk(l) && Wanted(q, l, older + items) == |older| && PageHolds(q, l, size, items)
    ensures WantedFits(q, l, size, older + items)
  {
    hide Wanted, Size;
    assert (older + items)[|older|..] == items;
  }

  lemma AskedIsPage(q: TailQuery, l: Limits, size: Item -> nat, log: seq<Event>, c: nat, from: nat, start: nat,
        older: seq<Item>, items: seq<Item>)
    requires LimitsOk(l) && QueryOk(q) && Numbered(log, 0) && c <= Ceiling(q, log)
    requires c > 0 ==> Enough(q, l, Collected(q, log, c))
    requires from <= start <= |Collected(q, log, c)| && Boundary(Collected(q, log, c), from)
    requires PageStartsAt(q, l, Collected(q, log, c), c > 0, from)
    requires forall k :: from <= k < start && Boundary(Collected(q, log, c), k) ==>
      !Fits(Collected(q, log, c), k, l.maxBytes, size)
    requires older + items == Collected(q, log, 0) && AskedFor(q, l, older, items) && PageHolds(q, l, size, items)
    ensures Collected(q, log, c)[start..] == items
  {
    hide Collected, AskedFor, Enough, PageStartsAt, Fits, Boundary, Size, Numbered, Coherent, Wanted, Ceiling;
    AllBelow(q, log, 0);
    AskedIsWanted(q, l, older, items);
    HeldIsFitting(q, l, size, older, items);
    assert (older + items)[|older|..] == items;
    PageIsWanted(q, l, size, log, c, from, start);
  }

  lemma EnoughWasRead(stop: Stop, q: TailQuery, l: Limits, size: Item -> nat, world: nat -> Snapshot, c: nat, n: nat)
    requires QueryOk(q) && LimitsOk(l) && c <= Ceiling(q, world(0).log) && StopsFor(stop, q, l, size, world, c, n)
    requires stop.Began? || stop.ReadEnough?
    ensures c > 0 ==> Enough(q, l, Collected(q, world(0).log, c)) && Collected(q, world(0).log, c) != []
  {
    hide MapEvents;
  }

  /**
   * A page of the items collected starts at the first event, from where the query wants it to, from which on
   * it fits; it says that older items exist unless it starts with the first item of a log read to its beginning.
   */
  ghost predicate FirstFit(q: TailQuery, l: Limits, size: Item -> nat, log: seq<Event>, c: nat,
        page: ItemsPage, from: nat, start: nat)
    requires QueryOk(q) && LimitsOk(l) && c <= Ceiling(q, log)
  {
    var items := Collected(q, log, c);
    && from <= start <= |items| && page.items == items[start..]
    && PageStartsAt(q, l, items, c > 0, from)
    && Boundary(items, start) && Fits(items, start, l.maxBytes, size)
    && (forall k :: from <= k < start && Boundary(items, k) ==> !Fits(items, k, l.maxBytes, size))
    && (items != [] ==> page.items != [])
    && (page.hasMore <==> start > 0 || c > 0)
  }

  /** Only a scan cut short without finding an item leaves a page to go on from that is empty. */
  lemma EmptyPage(q: TailQuery, l: Limits, size: Item -> nat, log: seq<Event>, c: nat, page: ItemsPage,
        from: nat, start: nat)
    requires QueryOk(q) && LimitsOk(l) && c <= Ceiling(q, log) && FirstFit(q, l, size, log, c, page, from, start)
    ensures page.items == [] <==> Collected(q, log, c) == []
    ensures page.items == [] && page.hasMore ==> c > 0
  {
  }

  /**
   * A backward page: whole newest events below the position asked for, within the item and byte
   * limits, from the first event on from which the items collected fit; and, unless a cap or a replaced log
   * ended the scan, exactly the last turns (or items) of the whole log, however it was cut into chunks and
   * whatever was appended between two reads. An empty page announces more only after such a scan.
   */
  method ReadTail(source: Source, q: TailQuery, l: Limits, size: Item -> nat, ghost world: nat -> Snapshot)
    returns (r: Result<ItemsPage, string>, ghost c: nat, ghost stop: Stop, ghost n: nat)
    requires LimitsOk(l) && QueryOk(q) && Timeline(world) && Honest(source, world)
    ensures r.Failure? ==> exists t, query :: source(t, query) == Failure(r.error)
    ensures r.Success? ==>
      var (log, page) := (world(0).log, r.value);
      && page.history == world(0).history
      && TailBlock(q, log, page) && TailBounded(q, l, size, page.items)
      && c <= Ceiling(q, log) && StopsFor(stop, q, l, size, world, c, n)
      && (exists from, start :: FirstFit(q, l, size, log, c, page, from, start))
      && (page.items == [] && page.hasMore ==> stop.CapHit? || stop.Replaced?)
      && (stop.Began? || stop.ReadEnough? ==>
            forall older, items ::
              older + items == Collected(q, log, 0) && AskedFor(q, l, older, items) && PageHolds(q, l, size, items)
              ==> page.items == items)
  {
    hide MapEvent, MapEvents, Collected, ItemsIn, TailBlock, TailBounded;
    hide Wanted, WantedFits, StopsFor, Enough, Timeline, Answers;
    hide EventStart, TurnStarts, Coherent, PageStartsAt, Fits, Boundary, Honest;
    var scan;
    scan, c, stop, n := ScanBack(source, q, l, size, world);
    if scan.Failure? {
      return Failure(scan.error), c, stop, n;
    }
    var collected, olderExists := scan.value.collected, scan.value.olderExists;
    ghost var log := world(0).log;
    ReadLog(world, 0, 0);
    AllBelow(q, log, c);
    var from := PageStart(q, l, collected, olderExists);
    var start := FitBytes(collected, from, l.maxBytes, size);
    var end := scan.value.first.lastSeq + 1;
    var toSeq := if q.before.Some? && q.before.value - 1 < end then q.before.value - 1 else end;
    var page := ItemsPage(collected[start..], start > 0 || olderExists, scan.value.first.history, toSeq);
    PageIsBlock(q, log, c, page, start);
    PageIsBounded(q, l, size, collected, from, start);
    assert FirstFit(q, l, size, log, c, page, from, start);
    EmptyPage(q, l, size, log, c, page, from, start);
    if stop.Began? || stop.ReadEnough? {
      EnoughWasRead(stop, q, l, size, world, c, n);
      forall older, items |
          older + items == Collected(q, log, 0) && AskedFor(q, l, older, items) && PageHolds(q, l, size, items)
        ensures page.items == items
      {
        AskedIsPage(q, l, size, log, c, from, start, older, items);
      }
    }
    return Success(page), c, stop, n;
  }
}
