/** Repeated backward pages: what a reader holds after asking again with `before_seq = items[0].seq`. */
module PagingBack {
  import opened Options
  import opened Mapper
  import opened MapperLaws
  import opened EventLog
  import opened PagingTail

  /** The items of the first `n` pages, oldest first, when each page was asked for below the one before it. */
  function Joined(pages: nat -> ItemsPage, n: nat): seq<Item> {
    if n == 0 then [] else pages(n - 1).items + Joined(pages, n - 1)
  }

  predicate Continues(q: TailQuery, page: ItemsPage) { page.items != [] && q.before == Some(page.items[0].seqNo) }

  /** The `i`-th page was answered from a later state of the log the first page came from. */
  ghost predicate PageOf(q: TailQuery, first: seq<Event>, log: seq<Event>, page: ItemsPage) {
    QueryOk(q) && Numbered(log, 0) && first <= log && TailBlock(q, log, page)
  }

  /** Each page continues below the first item of the page before; the log may grow between two requests. */
  ghost predicate Backwards(queries: nat -> TailQuery, logs: nat -> seq<Event>, pages: nat -> ItemsPage, n: nat) {
    && (forall i :: 0 <= i < n ==> PageOf(queries(i), logs(0), logs(i), pages(i)))
    && (forall i :: 0 < i < n ==> Continues(queries(i), pages(i - 1)))
  }

  lemma NoneInFront(a: seq<Item>, b: seq<Item>, s: nat)
    requires a + b != [] && (a + b)[0].seqNo == s
    requires forall i :: 0 <= i < |a| ==> a[i].seqNo < s
    ensures a + b == b
  {
  }

  /** The event of the first item: none of the items of a slice come from the events before it. */
  lemma FirstItem(log: seq<Event>, d: nat, m: nat)
    requires Numbered(log, 0) && d <= m <= |log| && ItemsIn(log, d, m) != []
    ensures var s := ItemsIn(log, d, m)[0].seqNo; d < s <= m && ItemsIn(log, s - 1, m) == ItemsIn(log, d, m)
  {
    hide MapEvents;
    var items := ItemsIn(log, d, m);
    SliceNumbered(log, d, m);
    MapEventsOrdered(log[d..m], d);
    var s := items[0].seqNo;
    ItemsInSplit(log, d, s - 1, m);
    SliceNumbered(log, d, s - 1);
    MapEventsOrdered(log[d..s - 1], d);
    NoneInFront(ItemsIn(log, d, s - 1), ItemsIn(log, s - 1, m), s);
  }

  lemma NothingBetween(log: seq<Event>, m: nat)
    requires m <= |log|
    ensures ItemsIn(log, m, m) == []
  {
  }

  /** A page asked for below event `upper` of the first log is a block of the first log, however the log grew. */
  lemma PageBelow(q: TailQuery, log: seq<Event>, later: seq<Event>, page: ItemsPage, upper: nat) returns (e: nat)
    requires PageOf(q, log, later, page) && upper <= |log| && Ceiling(q, later) == upper
    ensures e <= upper && page.items == ItemsIn(log, e, upper)
    ensures !page.hasMore ==> page.items == ItemsIn(log, 0, upper)
  {
    hide MapEvents;
    e :| 0 <= e <= upper && page.items == ItemsIn(later, e, upper);
    ItemsInGrown(log, later, e, upper);
    ItemsInGrown(log, later, 0, upper);
  }

  /** Joining one more page to the items from event `upper` on. */
  lemma OneMorePage(q: TailQuery, log: seq<Event>, later: seq<Event>, page: ItemsPage, upper: nat, m: nat)
    returns (d: nat)
    requires PageOf(q, log, later, page) && upper <= m <= |log| && Ceiling(q, later) == upper && Numbered(log, 0)
    ensures d <= m && page.items + ItemsIn(log, upper, m) == ItemsIn(log, d, m)
    ensures d <= upper && (page.items != [] ==> d == page.items[0].seqNo - 1 < upper)
    ensures !page.hasMore ==> page.items + ItemsIn(log, upper, m) == ItemsIn(log, 0, m)
  {
    hide MapEvents, ItemsIn, TailBlock;
    d := PageBelow(q, log, later, page, upper);
    ItemsInSplit(log, d, upper, m);
    ItemsInSplit(log, 0, upper, m);
    if page.items != [] {
      FirstItem(log, d, upper);
      d := page.items[0].seqNo - 1;
      ItemsInSplit(log, d, upper, m);
    }
  }

  /** Where the pages read so far begin in the first log. */
  lemma {:induction false} BackwardPages(queries: nat -> TailQuery, logs: nat -> seq<Event>, pages: nat -> ItemsPage,
        n: nat)
    returns (d: nat)
    requires n > 0 && Backwards(queries, logs, pages, n)
    ensures var m := Ceiling(queries(0), logs(0));
      && d <= m && Joined(pages, n) == ItemsIn(logs(0), d, m)
      && d + n <= m + (if pages(n - 1).items == [] then 1 else 0)
      && (pages(n - 1).items != [] ==> d == pages(n - 1).items[0].seqNo - 1)
      && (!pages(n - 1).hasMore ==> Joined(pages, n) == ItemsIn(logs(0), 0, m))
  {
    hide MapEvents, ItemsIn, TailBlock;
    var log, m := logs(0), Ceiling(queries(0), logs(0));
    var upper := m;
    assert PageOf(queries(0), log, log, pages(0)) && PageOf(queries(n - 1), log, logs(n - 1), pages(n - 1));
    if n == 1 {
      NothingBetween(log, m);
      assert Joined(pages, 0) == [];
    } else {
      upper := BackwardPages(queries, logs, pages, n - 1);
      assert Continues(queries(n - 1), pages(n - 2));
    }
    d := OneMorePage(queries(n - 1), log, logs(n - 1), pages(n - 1), upper, m);
  }

  /** The items are those of the events numbered `d` to `m - 1`. */
  ghost predicate ItemsFrom(log: seq<Event>, d: nat, m: nat, items: seq<Item>) {
    d <= m <= |log| && items == ItemsIn(log, d, m)
  }

  /** The items are those of the last events below `m`, of at least `back` events. */
  ghost predicate ReachBack(log: seq<Event>, m: nat, items: seq<Item>, back: nat) {
    exists d: nat :: ItemsFrom(log, d, m, items) && d + back <= m
  }

  lemma ReachesBack(log: seq<Event>, d: nat, m: nat, items: seq<Item>, back: nat)
    requires ItemsFrom(log, d, m, items) && d + back <= m
    ensures ReachBack(log, m, items, back)
  {
  }

  /**
   * Pages chained by `before_seq = items[0].seq` join up to a suffix of the items below the first
   * page's ceiling, each item once and in order; when the last page says nothing is older, to all of them.
   * Every page but an empty last one reaches at least one event further back.
   */
  lemma BackwardEnumeration(queries: nat -> TailQuery, logs: nat -> seq<Event>, pages: nat -> ItemsPage, n: nat)
    requires n > 0 && Backwards(queries, logs, pages, n)
    ensures QueryOk(queries(0))
    ensures var (log, m, all) := (logs(0), Ceiling(queries(0), logs(0)), Joined(pages, n));
      && ReachBack(log, m, all, if pages(n - 1).items == [] then n - 1 else n)
      && (!pages(n - 1).hasMore ==> all == ItemsIn(log, 0, m))
  {
    hide MapEvents, ItemsIn, TailBlock;
    var d := BackwardPages(queries, logs, pages, n);
    assert PageOf(queries(0), logs(0), logs(0), pages(0));
    var back := if pages(n - 1).items == [] then n - 1 else n;
    ReachesBack(logs(0), d, Ceiling(queries(0), logs(0)), Joined(pages, n), back);
  }
}
