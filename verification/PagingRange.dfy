/** Ranges of items, and what repeated forward pages add up to. */
module PagingRange {
  import opened Options
  import opened Mapper
  import opened MapperLaws
  import opened EventLog
  import opened Numbers
  import opened Pages
  import opened PagingTail
  import opened PagingForward

  // ---- A range ---------------------------------------------------------------------------------------

  /** The number of the first event whose items have seqs from `from` on. */
  function FirstEvent(from: nat): nat { if from < 1 then 0 else from - 1 }

  /** A range page of a log: whole events of the range, in order; all of them unless it says there is more. */
  ghost predicate RangeBlock(from: nat, through: nat, log: seq<Event>, page: RangePage) {
    var start := FirstEvent(from);
    && AppendedOrShort(log, start, page.toSeq, page.items) && page.toSeq <= through
    && (!page.more ==> page.toSeq == Min(through, Max(start, |log|)))
    && (page.more ==> page.toSeq > start)
  }

  lemma PartOfChunk(log: seq<Event>, c: nat, events: seq<Event>, part: seq<Event>)
    requires NextEvents(log, c, events) && |part| <= |events| && part == events[..|part|]
    ensures NextEvents(log, c, part)
  {
  }

  /** The events at or below `through`, which are the first ones. */
  method Within(events: seq<Event>, cursor: int, through: nat, ghost log: seq<Event>)
    returns (inRange: seq<Event>, passed: bool)
    requires cursor >= -1 && Numbered(log, 0) && NextEvents(log, cursor + 1, events)
    requires cursor + 1 <= through
    ensures NextEvents(log, cursor + 1, inRange) && cursor + 1 + |inRange| <= through
    ensures if passed then cursor + 1 + |inRange| == through else |inRange| == |events|
  {
    hide NextEvents, Numbered;
    ChunkNumbers(log, cursor + 1, events);
    inRange, passed := [], false;
    for i := 0 to |events|
      invariant |inRange| <= i && inRange == events[..|inRange|] && cursor + 1 + |inRange| <= through
      invariant if passed then cursor + 1 + |inRange| == through else |inRange| == i
    {
      if events[i].seqNo > cursor && events[i].seqNo + 1 <= through {
        inRange := inRange + [events[i]];
      }
      if events[i].seqNo + 1 > through {
        passed := true;
      }
    }
    PartOfChunk(log, cursor + 1, events, inRange);
  }

  lemma RangeEndsEarly(from: nat, through: nat, c: nat, items: seq<Item>, history: History,
                       limit: nat, l: Limits, size: Item -> nat, world: nat -> Snapshot, at: nat)
    requires AppendedAt(world(at).log, FirstEvent(from), c, items) && FirstEvent(from) < c <= through
    requires || (c < |world(at).log| && Overflows(items, world(at).log[c], limit, l.maxBytes, size))
             || c - FirstEvent(from) >= l.maxScanEvents
             || world(at + 1).history != world(0).history
    ensures RangeBlock(from, through, world(at).log, RangePage(items, true, history, c))
    ensures StopsEarly(FirstEvent(from), c, items, limit, l, size, world, at)
  {
    hide MapEvents, ItemsIn, Overflows;
  }

  lemma RangeReachesEnd(log: seq<Event>, from: nat, through: nat, c: nat, items: seq<Item>, history: History)
    requires AppendedOrShort(log, FirstEvent(from), c, items) && c <= through && FirstEvent(from) <= c &&
      (c == through || c >= |log|)
    ensures RangeBlock(from, through, log, RangePage(items, false, history, Min(through, Max(c, |log|))))
  {
    hide MapEvents, ItemsIn;
  }

  /**
   * The items with `from` <= seq <= `through`: whole events of the log as it was at read `at`, within
   * the item and byte limits unless they all come from one event.
   */
  method ReadRange(source: Source, from: nat, through: nat, requested: Option<nat>, l: Limits, size: Item -> nat,
                   ghost world: nat -> Snapshot)
    returns (r: Result<RangePage, string>, ghost at: nat)
    requires LimitsOk(l) && Timeline(world) && Honest(source, world)
    ensures r.Failure? ==> through >= from && exists t, query :: source(t, query) == Failure(r.error)
    ensures r.Success? && through < from ==> r.value == RangePage([], false, "", FirstEvent(from))
    ensures r.Success? && through >= from ==>
      var (log, page, limit) := (world(at).log, r.value, Min(requested.GetOr(l.maxItems), l.maxItems));
      && page.history == world(0).history == world(at).history
      && RangeBlock(from, through, log, page)
      && Bounded(page.items, limit, l.maxBytes, size)
      && (page.more ==> StopsEarly(FirstEvent(from), page.toSeq, page.items, limit, l, size, world, at))
  {
    hide MapEvent, MapEvents, ItemsIn, Answers, Timeline, Honest, Bounded;
    hide Overflows, Numbered, Appended, StopsEarly, AppendedAt, AppendedOrShort, NextEvents, RangeBlock;
    var limit := Min(requested.GetOr(l.maxItems), l.maxItems);
    var cursor: int := Max(from, 1) - 2;
    var items: seq<Item>, toSeq: nat, scanned: nat, bytes: nat := [], Max(from - 1, 0), 0, 0;
    var history: Option<History> := None;
    var t: nat := 0;
    at := 0;
    if through < from {
      return Success(RangePage(items, false, "", toSeq)), at;
    }
    ghost var start := FirstEvent(from);
    BoundedEmpty(limit, l.maxBytes, size);
    while true
      invariant cursor == toSeq - 1 && toSeq <= through && bytes == Size(items, size) &&
        Bounded(items, limit, l.maxBytes, size)
      invariant scanned == toSeq - start
      invariant history.None? ==> t == 0 && at == 0 && toSeq == start && items == []
      invariant history.Some? ==> history.value == world(0).history == world(at).history && t == at + 1
      invariant history.Some? ==> start < toSeq && AppendedAt(world(at).log, start, toSeq, items)
      decreases l.maxScanEvents - scanned
    {
      var read := source(t, After(cursor, l.chunkEvents));
      if read.Failure? {
        return Failure(read.error), at;
      }
      var res := read.value;
      ReadForward(source, world, at, t, toSeq, l.chunkEvents, res);
      if history.None? {
        history := Some(res.history);
        StartsEmpty(world(t).log, start);
      } else if res.history != history.value {
        assert world(t).history != world(0).history;
        RangeEndsEarly(from, through, toSeq, items, history.value, limit, l, size, world, at);
        return Success(RangePage(items, true, history.value, toSeq)), at;
      } else {
        StillAppended(world(at).log, world(t).log, start, toSeq, items);
      }
      var inRange, passed := Within(res.events, cursor, through, world(t).log);
      var stopped;
      items, toSeq, bytes, stopped := TakeChunk(inRange, cursor, items, limit, bytes, l.maxBytes, size, world(t).log,
        start);
      if |inRange| > 0 {
        NowAppended(world(t).log, start, toSeq, items);
      }
      cursor := toSeq - 1;
      scanned := scanned + |inRange|;
      at := t;
      t := t + 1;
      if stopped {
        RangeEndsEarly(from, through, toSeq, items, history.value, limit, l, size, world, at);
        return Success(RangePage(items, true, history.value, toSeq)), at;
      }
      if passed || !res.hasMore || |res.events| == 0 {
        RangeReachesEnd(world(at).log, from, through, toSeq, items, history.value);
        toSeq := Min(through, Max(toSeq, res.lastSeq + 1));
        return Success(RangePage(items, false, history.value, toSeq)), at;
      }
      if scanned >= l.maxScanEvents {
        RangeEndsEarly(from, through, toSeq, items, history.value, limit, l, size, world, at);
        return Success(RangePage(items, true, history.value, toSeq)), at;
      }
    }
  }

  /** The items with seqs between two bounds, picked out one by one. */
  function Restrict(items: seq<Item>, from: nat, through: nat): seq<Item> {
    if items == [] then []
    else Restrict(items[..|items| - 1], from, through) +
         if from <= items[|items| - 1].seqNo <= through then [items[|items| - 1]] else []
  }

  lemma {:induction false} RestrictConcat(a: seq<Item>, b: seq<Item>, from: nat, through: nat)
    ensures Restrict(a + b, from, through) == Restrict(a, from, through) + Restrict(b, from, through)
  {
    if b == [] {
      assert a + b == a;
    } else {
      assert (a + b)[..|a + b| - 1] == a + b[..|b| - 1];
      RestrictConcat(a, b[..|b| - 1], from, through);
    }
  }

  lemma {:induction false} RestrictAll(items: seq<Item>, from: nat, through: nat)
    requires forall i :: 0 <= i < |items| ==> from <= items[i].seqNo <= through
    ensures Restrict(items, from, through) == items
  {
    if items != [] {
      RestrictAll(items[..|items| - 1], from, through);
    }
  }

  lemma {:induction false} RestrictNone(items: seq<Item>, from: nat, through: nat)
    requires forall i :: 0 <= i < |items| ==> !(from <= items[i].seqNo <= through)
    ensures Restrict(items, from, through) == []
  {
    if items != [] {
      RestrictNone(items[..|items| - 1], from, through);
    }
  }

  lemma SliceSeqs(log: seq<Event>, a: nat, b: nat)
    requires Numbered(log, 0) && a <= b <= |log|
    ensures forall i :: 0 <= i < |ItemsIn(log, a, b)| ==> a < ItemsIn(log, a, b)[i].seqNo <= b
  {
    hide MapEvents;
    SliceNumbered(log, a, b);
    MapEventsOrdered(log[a..b], a);
  }

  /** The items of consecutive events are the items with their seqs, whichever way the bounds outside the log lie. */
  lemma SliceIsRestriction(log: seq<Event>, a: nat, b: nat, from: nat, through: nat)
    requires Numbered(log, 0) && a <= b <= |log| && FirstEvent(from) == a
    requires through == b || (b == |log| && through >= b)
    ensures ItemsIn(log, a, b) == Restrict(MapEvents(log), from, through)
  {
    hide MapEvents, Restrict;
    ItemsInSplit(log, 0, a, b);
    ItemsInSplit(log, 0, b, |log|);
    assert log[0..|log|] == log;
    SliceSeqs(log, 0, a);
    SliceSeqs(log, a, b);
    SliceSeqs(log, b, |log|);
    RestrictConcat(ItemsIn(log, 0, b), ItemsIn(log, b, |log|), from, through);
    RestrictConcat(ItemsIn(log, 0, a), ItemsIn(log, a, b), from, through);
    RestrictNone(ItemsIn(log, 0, a), from, through);
    RestrictAll(ItemsIn(log, a, b), from, through);
    RestrictNone(ItemsIn(log, b, |log|), from, through);
  }

  /** A range page holds exactly the items of the log with seqs in the range (up to where it stopped). */
  lemma RangeIsRestriction(from: nat, through: nat, log: seq<Event>, page: RangePage)
    requires Numbered(log, 0) && RangeBlock(from, through, log, page) && from <= through
    ensures page.items == Restrict(MapEvents(log), from, if page.more then page.toSeq else through)
  {
    hide MapEvents, ItemsIn, Restrict;
    var a := FirstEvent(from);
    if a <= |log| {
      SliceIsRestriction(log, a, page.toSeq, from, if page.more then page.toSeq else through);
    } else {
      assert log[0..|log|] == log;
      SliceSeqs(log, 0, |log|);
      SliceItems(log, 0, |log|);
      RestrictNone(MapEvents(log), from, if page.more then page.toSeq else through);
    }
  }

  // ---- Forward enumeration ---------------------------------------------------------------------------

  /** The items of the first `n` pages, oldest first. */
  function Laid(pages: nat -> AfterPage, n: nat): seq<Item> {
    if n == 0 then [] else Laid(pages, n - 1) + pages(n - 1).items
  }

  /** The position the `i`-th page is asked for. */
  function From(after: nat, pages: nat -> AfterPage, i: nat): nat { if i == 0 then after else pages(i - 1).toSeq }

  /** Each page starts where the one before ended, on one log that may grow between two requests. */
  ghost predicate Forwards(after: nat, logs: nat -> seq<Event>, pages: nat -> AfterPage, n: nat) {
    && after <= |logs(0)|
    && (forall i :: 0 < i < n ==> logs(i - 1) <= logs(i))
    && (forall i :: 0 <= i < n ==> AfterBlock(From(after, pages, i), logs(i), pages(i)))
    && (forall i :: 0 <= i < n - 1 ==> pages(i).moreAfter)
  }

  /** One more page, on a grown log, continues the items laid out so far. */
  lemma LayPage(after: nat, was: seq<Event>, log: seq<Event>, c: nat, items: seq<Item>, page: AfterPage)
    requires Appended(was, after, c, items) && was <= log && AfterBlock(c, log, page)
    ensures Appended(log, after, page.toSeq, items + page.items)
    ensures page.toSeq >= c + if page.moreAfter then 1 else 0
  {
    hide MapEvents, ItemsIn;
    ItemsInGrown(was, log, after, c);
    ItemsInSplit(log, after, c, page.toSeq);
  }

  /**
   * Every page with more to come advances, and together the pages are the items of the log from the first
   * position on.
   */
  lemma {:induction false} ForwardPages(after: nat, logs: nat -> seq<Event>, pages: nat -> AfterPage, n: nat)
    requires n > 0 && Forwards(after, logs, pages, n)
    ensures Appended(logs(n - 1), after, pages(n - 1).toSeq, Laid(pages, n))
    ensures pages(n - 1).toSeq >= after + n - if pages(n - 1).moreAfter then 0 else 1
  {
    hide MapEvents, ItemsIn, Appended, AfterBlock;
    assert AfterBlock(From(after, pages, n - 1), logs(n - 1), pages(n - 1));
    if n == 1 {
      StartsEmpty(logs(0), after);
      LayPage(after, logs(0), logs(0), after, Laid(pages, 0), pages(0));
    } else {
      ForwardPages(after, logs, pages, n - 1);
      assert logs(n - 2) <= logs(n - 1);
      LayPage(after, logs(n - 2), logs(n - 1), pages(n - 2).toSeq, Laid(pages, n - 1), pages(n - 1));
    }
  }

  lemma WholeLog(log: seq<Event>, after: nat, c: nat, items: seq<Item>)
    requires Appended(log, after, c, items)
    ensures c == |log| ==> items == MapEvents(log[after..])
    ensures c == |log| && Numbered(log, 0) ==> items == Restrict(MapEvents(log), after + 1, |log|)
  {
    hide MapEvents, Restrict;
    assert log[after..|log|] == log[after..];
    if Numbered(log, 0) {
      SliceIsRestriction(log, after, |log|, after + 1, |log|);
    }
  }

  /**
   * Asking again from `to_seq` until nothing more is announced: the pages are together exactly the
   * items of the log after the first position, and there are no more pages than events (and one).
   */
  lemma ForwardEnumeration(after: nat, logs: nat -> seq<Event>, pages: nat -> AfterPage, n: nat)
    requires n > 0 && Forwards(after, logs, pages, n)
    ensures n <= |logs(n - 1)| - after + 1
    ensures !pages(n - 1).moreAfter ==> Laid(pages, n) == MapEvents(logs(n - 1)[after..])
    ensures !pages(n - 1).moreAfter && Numbered(logs(n - 1), 0) ==>
      Laid(pages, n) == Restrict(MapEvents(logs(n - 1)), after + 1, |logs(n - 1)|)
  {
    ForwardPages(after, logs, pages, n);
    assert AfterBlock(From(after, pages, n - 1), logs(n - 1), pages(n - 1));
    hide MapEvents, Laid, Restrict, From, Numbered;
    var log := logs(n - 1);
    WholeLog(log, after, pages(n - 1).toSeq, Laid(pages, n));
  }
}
