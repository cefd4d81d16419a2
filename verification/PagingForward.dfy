/** Forward pages and ranges: whole events after a position, oldest first. */
module PagingForward {
  import opened Options
  import opened Mapper
  import opened MapperLaws
  import opened EventLog
  import opened Numbers
  import opened Pages
  import opened PagingTail

  datatype AfterPage = AfterPage(items: seq<Item>, hasMore: bool, moreAfter: bool, history: History, toSeq: nat,
    fromSeq: nat)

  datatype RangePage = RangePage(items: seq<Item>, more: bool, history: History, toSeq: nat)

  // ---- Whole events while they fit -------------------------------------------------------------------

  /** A forward page holds at most `limit` items of at most `maxBytes`, unless one event alone is larger. */
  ghost predicate Bounded(items: seq<Item>, limit: nat, maxBytes: nat, size: Item -> nat) {
    || (|items| <= limit && Size(items, size) <= maxBytes)
    || (items != [] && forall i :: 0 <= i < |items| ==> items[i].seqNo == items[0].seqNo)
  }

  /** The next event does not fit on the page. */
  predicate Overflows(items: seq<Item>, event: Event, limit: nat, maxBytes: nat, size: Item -> nat) {
    items != [] && (|items| + |MapEvent(event)| > limit || Size(items, size) + Size(MapEvent(event), size) > maxBytes)
  }

  /** An event that does not fit would make the page too long or too large; the first one always fits. */
  lemma OverflowMeans(items: seq<Item>, event: Event, limit: nat, maxBytes: nat, size: Item -> nat)
    ensures Overflows(items, event, limit, maxBytes, size) <==>
      items != [] && var more := items + MapEvent(event); |more| > limit || Size(more, size) > maxBytes
  {
    hide MapEvent;
    SizeConcat(items, MapEvent(event), size);
  }

  lemma NextEventBounded(items: seq<Item>, event: Event, limit: nat, maxBytes: nat, size: Item -> nat)
    requires Bounded(items, limit, maxBytes, size) && !Overflows(items, event, limit, maxBytes, size)
    ensures Bounded(items + MapEvent(event), limit, maxBytes, size)
  {
    EventItemsAlike(event);
    hide MapEvent;
    SizeConcat(items, MapEvent(event), size);
    if items == [] {
      assert items + MapEvent(event) == MapEvent(event);
      assert MapEvent(event) == [] ==> Size(MapEvent(event), size) == 0;
    }
  }

  /** As many of the events as fit go onto the page: the first `taken`; `stopped` when one was left. */
  method AppendWhole(events: seq<Event>, items: seq<Item>, limit: nat, bytesLeft: int, size: Item -> nat,
        ghost maxBytes: nat)
    returns (items': seq<Item>, taken: nat, bytes: nat, stopped: bool)
    requires Bounded(items, limit, maxBytes, size) && bytesLeft == maxBytes - Size(items, size)
    ensures taken <= |events| && items' == items + MapEvents(events[..taken])
    ensures Bounded(items', limit, maxBytes, size) && bytes == Size(items', size) - Size(items, size)
    ensures stopped <==> taken < |events|
    ensures stopped ==> Overflows(items', events[taken], limit, maxBytes, size)
    ensures items == [] && events != [] ==> taken > 0
  {
    hide MapEvent, Bounded;
    items', taken, bytes := items, 0, 0;
    var left := bytesLeft;
    while taken < |events|
      invariant taken <= |events| && items' == items + MapEvents(events[..taken])
      invariant Bounded(items', limit, maxBytes, size) && (taken == 0 ==> items' == items)
      invariant left == maxBytes - Size(items', size) && bytes == Size(items', size) - Size(items, size)
    {
      var event := events[taken];
      var mapped := MapEvent(event);
      var eventSize := TotalSize(mapped, size);
      if |items'| > 0 && (|items'| + |mapped| > limit || eventSize > left) {
        return items', taken, bytes, true;
      }
      NextEventBounded(items', event, limit, maxBytes, size);
      SizeConcat(items', mapped, size);
      assert events[..taken + 1][..taken] == events[..taken];
      assert items + MapEvents(events[..taken]) + mapped == items + (MapEvents(events[..taken]) + mapped);
      items' := items' + mapped;
      left := left - eventSize;
      bytes := bytes + eventSize;
      taken := taken + 1;
    }
    stopped := false;
  }

  // ---- After a position ------------------------------------------------------------------------------

  /** The items from `after` on have been appended, up to event `c`. */
  ghost predicate Appended(log: seq<Event>, after: nat, c: nat, items: seq<Item>) {
    after <= c <= |log| && items == ItemsIn(log, after, c)
  }

  /**
   * A page after `after` of a log: the items of its next whole events. Without `moreAfter` it
   * reaches the end of the log (a log shorter than `after` moves the position back to its end);
   * with it, the position has advanced.
   */
  ghost predicate AfterBlock(after: nat, log: seq<Event>, page: AfterPage) {
    && page.fromSeq == after && (page.hasMore <==> after > 0)
    && (|| Appended(log, after, page.toSeq, page.items)
        || (page.items == [] && page.toSeq == |log| < after && !page.moreAfter))
    && (!page.moreAfter ==> page.toSeq == |log|)
    && (page.moreAfter ==> page.toSeq > after)
  }

  /**
   * Why a page stops before the end of the log as it was at read `at`: its next event does not fit, enough
   * events were read, or the next read found another log.
   */
  ghost predicate StopsEarly(from: nat, c: nat, items: seq<Item>, limit: nat, l: Limits, size: Item -> nat,
        world: nat -> Snapshot, at: nat) {
    || (c < |world(at).log| && Overflows(items, world(at).log[c], limit, l.maxBytes, size))
    || c - from >= l.maxScanEvents
    || world(at + 1).history != world(0).history
  }

  /** The events are the ones numbered from `c` on. */
  ghost predicate NextEvents(log: seq<Event>, c: nat, events: seq<Event>) {
    events != [] ==> c + |events| <= |log| && events == log[c..c + |events|]
  }

  lemma SliceItems(log: seq<Event>, a: nat, b: nat)
    requires a <= b <= |log|
    ensures MapEvents(log[a..b]) == ItemsIn(log, a, b)
  {
  }

  /** Events read right after `c` extend what was appended, in this or any later state of the log. */
  lemma Extends(log: seq<Event>, later: seq<Event>, after: nat, c: nat, items: seq<Item>, events: seq<Event>,
        taken: nat)
    requires Appended(log, after, c, items) && log <= later && taken <= |events|
    requires NextEvents(later, c, events)
    ensures Appended(later, after, c + taken, items + MapEvents(events[..taken]))
  {
    hide MapEvents, ItemsIn;
    ItemsInGrown(log, later, after, c);
    if taken == 0 {
      NoItems();
      assert events[..0] == [] && items + [] == items;
    } else {
      assert events[..taken] == later[c..c + taken];
      assert MapEvents(events[..taken]) == ItemsIn(later, c, c + taken) by { SliceItems(later, c, c + taken); }
      ItemsInSplit(later, after, c, c + taken);
    }
  }

  /** What a forward read adds to knowing the log as it was at an earlier read. */
  lemma ReadForward(source: Source, world: nat -> Snapshot, t: nat, u: nat, c: nat, limit: nat, res: Answer)
    requires Timeline(world) && Honest(source, world) && t <= u && source(u, After(c - 1, limit)) == Success(res)
    ensures res.history == world(u).history && res.lastSeq == |world(u).log| - 1
    ensures Numbered(world(u).log, 0)
    ensures world(t).history == world(u).history ==> world(t).log <= world(u).log
    ensures c < |world(u).log| ==> res.events != []
    ensures NextEvents(world(u).log, c, res.events)
    ensures res.hasMore <==> c + |res.events| < |world(u).log|
  {
    ReadAt(source, world, u, After(c - 1, limit), res);
    ReadLog(world, t, u);
    ForwardAnswer(res, c, limit, world(u));
  }

  lemma ChunkNumbers(log: seq<Event>, c: nat, events: seq<Event>)
    requires Numbered(log, 0) && NextEvents(log, c, events)
    ensures forall i :: 0 <= i < |events| ==> events[i].seqNo == c + i
  {
  }

  method Above(events: seq<Event>, cursor: int, ghost log: seq<Event>) returns (above: seq<Event>)
    requires cursor >= -1 && Numbered(log, 0) && NextEvents(log, cursor + 1, events)
    ensures above == events
  {
    hide NextEvents, Numbered;
    ChunkNumbers(log, cursor + 1, events);
    above := [];
    for i := 0 to |events|
      invariant above == events[..i]
    {
      if events[i].seqNo > cursor {
        above := above + [events[i]];
      }
    }
  }

  /** What is appended so far, seen from the log of a later read; nothing is when the log is too short. */
  ghost predicate AppendedOrShort(log: seq<Event>, after: nat, c: nat, items: seq<Item>) {
    if after <= |log| then Appended(log, after, c, items) else c == after && items == []
  }

  lemma ShortLog(log: seq<Event>, after: nat, c: nat, items: seq<Item>)
    requires AppendedOrShort(log, after, c, items) && after > |log|
    ensures c == after && items == []
  {
  }

  /** Append the events of one forward read. */
  method TakeChunk(events: seq<Event>, cursor: int, items: seq<Item>, limit: nat, bytes: nat, maxBytes: nat,
        size: Item -> nat,
                   ghost log: seq<Event>, ghost after: nat)
    returns (items': seq<Item>, toSeq: nat, bytes': nat, stopped: bool)
    requires Numbered(log, 0) && Bounded(items, limit, maxBytes, size) && bytes == Size(items, size)
    requires cursor >= -1 && AppendedOrShort(log, after, cursor + 1, items)
    requires NextEvents(log, cursor + 1, events)
    ensures AppendedOrShort(log, after, toSeq, items') && Bounded(items', limit, maxBytes, size) &&
      bytes' == Size(items', size)
    ensures cursor + 1 <= toSeq <= cursor + 1 + |events|
    ensures stopped ==> toSeq < |log| && toSeq < cursor + 1 + |events|
    ensures stopped ==> Overflows(items', log[toSeq], limit, maxBytes, size)
    ensures !stopped ==> toSeq == cursor + 1 + |events|
    ensures items == [] && events != [] ==> toSeq > cursor + 1
  {
    hide MapEvent, MapEvents, ItemsIn, Bounded, Numbered, Appended;
    var c := cursor + 1;
    ChunkNumbers(log, c, events);
    var taken, more;
    items', taken, more, stopped := AppendWhole(events, items, limit, maxBytes - bytes, size, maxBytes);
    if after <= |log| {
      Extends(log, log, after, c, items, events, taken);
    } else {
      ShortLog(log, after, c, items);
      NoItems();
      assert events[..0] == [];
    }
    toSeq := c;
    if taken > 0 {
      toSeq := events[taken - 1].seqNo + 1;
    }
    bytes' := bytes + more;
  }

  ghost predicate AppendedAt(log: seq<Event>, after: nat, c: nat, items: seq<Item>) {
    after <= |log| && AppendedOrShort(log, after, c, items)
  }

  /** A grown log still starts with what was appended. */
  lemma StillAppended(log: seq<Event>, later: seq<Event>, after: nat, c: nat, items: seq<Item>)
    requires AppendedAt(log, after, c, items) && log <= later
    ensures AppendedOrShort(later, after, c, items) && after <= |later|
  {
    hide MapEvents, ItemsIn;
    ItemsInGrown(log, later, after, c);
  }

  lemma StartsEmpty(log: seq<Event>, after: nat)
    ensures AppendedOrShort(log, after, after, [])
  {
    if after <= |log| {
      assert log[after..after] == [];
      NoItems();
    }
  }

  lemma NowAppended(log: seq<Event>, after: nat, c: nat, items: seq<Item>)
    requires AppendedOrShort(log, after, c, items) && after < c
    ensures AppendedAt(log, after, c, items)
  {
  }

  /** A page that stops before the end of the log, and why. */
  lemma EndsEarly(after: nat, c: nat, items: seq<Item>, history: History,
                  limit: nat, l: Limits, size: Item -> nat, world: nat -> Snapshot, at: nat)
    requires AppendedAt(world(at).log, after, c, items) && after < c
    requires || (c < |world(at).log| && Overflows(items, world(at).log[c], limit, l.maxBytes, size))
             || c - after >= l.maxScanEvents
             || world(at + 1).history != world(0).history
    ensures AfterBlock(after, world(at).log, AfterPage(items, after > 0, true, history, c, after))
    ensures StopsEarly(after, c, items, limit, l, size, world, at)
  {
    hide MapEvents, ItemsIn, Overflows;
  }

  /** A read that leaves nothing beyond it ends the page at the end of the log. */
  lemma ReachesEnd(log: seq<Event>, after: nat, c: nat, items: seq<Item>, history: History)
    requires AppendedOrShort(log, after, c, items) && c >= |log|
    ensures var end := Max(c, |log|);
      AfterBlock(after, log, AfterPage(items, after > 0, false, history, if |log| < after then |log| else end, after))
  {
    hide MapEvents, ItemsIn;
  }

  lemma BoundedEmpty(limit: nat, maxBytes: nat, size: Item -> nat)
    ensures Bounded([], limit, maxBytes, size)
  {
  }

  /**
   * Items after `after`, oldest first: whole events of the log as it was at read `at`, the last one used;
   * at most `limit` items and `maxBytes` unless they all come from one event, and as many as that allows.
   */
  method ReadAfter(source: Source, after: nat, requested: Option<nat>, l: Limits, size: Item -> nat,
        ghost world: nat -> Snapshot)
    returns (r: Result<AfterPage, string>, ghost at: nat)
    requires LimitsOk(l) && Timeline(world) && Honest(source, world)
    ensures r.Failure? ==> exists t, query :: source(t, query) == Failure(r.error)
    ensures r.Success? ==>
      var (log, page, asked) := (world(at).log, r.value, requested.GetOr(l.defaultAfterLimit));
      && page.history == world(0).history == world(at).history
      && AfterBlock(after, log, page)
      && Bounded(page.items, Min(asked, l.maxItems), l.maxBytes, size)
      && (page.moreAfter ==> StopsEarly(after, page.toSeq, page.items, Min(asked, l.maxItems), l, size, world, at))
  {
    hide MapEvent, MapEvents, ItemsIn, Answers, Timeline, Honest, Bounded;
    hide Overflows, Numbered, Appended, StopsEarly, AfterBlock, AppendedAt, AppendedOrShort, NextEvents;
    var limit := Min(requested.GetOr(l.defaultAfterLimit), l.maxItems);
    var cursor: int := after - 1;
    var items: seq<Item>, toSeq: nat, scanned: nat, bytes: nat := [], after, 0, 0;
    var history: Option<History> := None;
    var t: nat := 0;
    at := 0;
    BoundedEmpty(limit, l.maxBytes, size);
    while true
      invariant cursor == toSeq - 1 && bytes == Size(items, size) && Bounded(items, limit, l.maxBytes, size)
      invariant scanned == toSeq - after
      invariant history.None? ==> t == 0 && at == 0 && toSeq == after && items == []
      invariant history.Some? ==> history.value == world(0).history == world(at).history && t == at + 1
      invariant history.Some? ==> after < toSeq && AppendedAt(world(at).log, after, toSeq, items)
      decreases l.maxScanEvents - scanned
    {
      var read := source(t, After(cursor, l.chunkEvents));
      if read.Failure? {
        return Failure(read.error), at;
      }
      var res := read.value;
      ReadForward(source, world, at, t, toSeq, l.chunkEvents, res);
      if history.None? {
        history := Some(res.history);
        StartsEmpty(world(t).log, after);
      } else if res.history != history.value {
        assert world(t).history != world(0).history;
        EndsEarly(after, toSeq, items, history.value, limit, l, size, world, at);
        return Success(AfterPage(items, after > 0, true, history.value, toSeq, after)), at;
      } else {
        StillAppended(world(at).log, world(t).log, after, toSeq, items);
      }
      var events := Above(res.events, cursor, world(t).log);
      var stopped;
      items, toSeq, bytes, stopped := TakeChunk(events, cursor, items, limit, bytes, l.maxBytes, size, world(t).log,
        after);
      if |events| > 0 {
        NowAppended(world(t).log, after, toSeq, items);
      }
      cursor := toSeq - 1;
      scanned := scanned + |events|;
      at := t;
      t := t + 1;
      if stopped {
        EndsEarly(after, toSeq, items, history.value, limit, l, size, world, at);
        return Success(AfterPage(items, after > 0, true, history.value, toSeq, after)), at;
      }
      if !res.hasMore || |events| == 0 {
        ReachesEnd(world(at).log, after, toSeq, items, history.value);
        toSeq := Max(toSeq, res.lastSeq + 1);
        if res.lastSeq + 1 < after {
          toSeq := res.lastSeq + 1;
        }
        return Success(AfterPage(items, after > 0, false, history.value, toSeq, after)), at;
      }
      if scanned >= l.maxScanEvents {
        EndsEarly(after, toSeq, items, history.value, limit, l, size, world, at);
        return Success(AfterPage(items, after > 0, true, history.value, toSeq, after)), at;
      }
    }
  }
}
