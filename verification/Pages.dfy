/** Item sequences as pages see them: event boundaries, turn starts, sizes. */
module Pages {
  import opened Options
  import opened Mapper
  import opened MapperLaws

  // ---- Event boundaries --------------------------------------------------------------------------

  /** No event's items are split at `i`. */
  predicate Boundary(items: seq<Item>, i: nat) { 0 < i < |items| ==> items[i - 1].seqNo != items[i].seqNo }

  /** Items of one event belong together: in order, all or none of them the person's. */
  ghost predicate Coherent(items: seq<Item>) {
    forall i :: 0 < i < |items| ==>
      && items[i - 1].seqNo <= items[i].seqNo
      && (items[i - 1].seqNo == items[i].seqNo ==> items[i - 1].person == items[i].person)
  }

  lemma EventItemsAlike(event: Event)
    ensures Coherent(MapEvent(event))
    ensures forall i :: 0 <= i < |MapEvent(event)| ==> MapEvent(event)[i].seqNo == event.seqNo + 1
  {
    hide Drafts;
  }

  lemma JoinCoherent(a: seq<Item>, b: seq<Item>)
    requires Coherent(a) && Coherent(b)
    requires a != [] && b != [] ==> a[|a| - 1].seqNo < b[0].seqNo
    ensures Coherent(a + b)
  {
  }

  lemma {:induction false} MapEventsCoherent(events: seq<Event>, first: nat)
    requires Numbered(events, first)
    ensures Coherent(MapEvents(events))
  {
    if events != [] {
      var init, last := events[..|events| - 1], events[|events| - 1];
      MapEventsCoherent(init, first);
      MapEventsOrdered(init, first);
      EventItemsAlike(last);
      hide MapEvent;
      JoinCoherent(MapEvents(init), MapEvent(last));
    }
  }

  /** The items of a log, split at its last event: that event's items all carry its seq. */
  lemma SplitLast(events: seq<Event>) returns (a: seq<Item>, b: seq<Item>)
    requires events != []
    ensures a == MapEvents(events[..|events| - 1]) && MapEvents(events) == a + b
    ensures b == MapEvents(events[|events| - 1..])
    ensures forall i :: 0 <= i < |b| ==> b[i].seqNo == events[|events| - 1].seqNo + 1
  {
    var last := events[|events| - 1];
    a, b := MapEvents(events[..|events| - 1]), MapEvent(last);
    assert events[|events| - 1..] == [last];
    MapEventsOne(last);
  }

  lemma BoundaryInFront(a: seq<Item>, b: seq<Item>, i: nat)
    requires i < |a + b| && Boundary(a + b, i)
    requires forall j, k :: 0 <= j < k < |b| ==> b[j].seqNo == b[k].seqNo
    ensures i <= |a| && Boundary(a, i)
  {
    assert forall j :: |a| <= j < |a + b| ==> (a + b)[j] == b[j - |a|];
  }

  lemma {:induction false} CutBetweenEvents(events: seq<Event>, n: nat, i: nat) returns (k: nat)
    requires n <= |events| && i <= |MapEvents(events[..n])| && Boundary(MapEvents(events[..n]), i)
    ensures k <= n && |MapEvents(events[..k])| == i
  {
    if i == |MapEvents(events[..n])| {
      k := n;
    } else {
      hide MapEvent;
      var a, b := SplitLast(events[..n]);
      assert events[..n][..n - 1] == events[..n - 1];
      BoundaryInFront(a, b, i);
      k := CutBetweenEvents(events, n - 1, i);
    }
  }

  /** A position between events in their items is a position between the events. */
  lemma BoundaryIsBetweenEvents(events: seq<Event>, i: nat) returns (k: nat)
    requires i <= |MapEvents(events)| && Boundary(MapEvents(events), i)
    ensures k <= |events| && MapEvents(events[..k]) == MapEvents(events)[..i] &&
      MapEvents(events[k..]) == MapEvents(events)[i..]
  {
    hide MapEvent;
    assert events[..|events|] == events;
    k := CutBetweenEvents(events, |events|, i);
    assert events == events[..k] + events[k..];
    MapEventsConcat(events[..k], events[k..]);
  }

  /** Going back from `index` over items with its seq. */
  function EventStart(items: seq<Item>, index: nat): (start: nat)
    requires index < |items|
    ensures start <= index && Boundary(items, start) && items[start].seqNo == items[index].seqNo
  {
    if index > 0 && items[index - 1].seqNo == items[index].seqNo then EventStart(items, index - 1) else index
  }

  lemma {:induction false} EventStartUnique(items: seq<Item>, index: nat, start: nat)
    requires index < |items| && start <= index && Boundary(items, start)
    requires forall j :: start <= j <= index ==> items[j].seqNo == items[index].seqNo
    ensures EventStart(items, index) == start
  {
    if start < index {
      assert items[index - 1].seqNo == items[index].seqNo;
      EventStartUnique(items, index - 1, start);
    }
  }

  /** Older items of other events do not matter to where an event starts. */
  lemma {:induction false} EventStartOfSuffix(older: seq<Item>, items: seq<Item>, index: nat)
    requires index < |items| && Boundary(older + items, |older|)
    ensures EventStart(older + items, |older| + index) == |older| + EventStart(items, index)
  {
    assert (older + items)[|older| + index] == items[index];
    if index > 0 {
      assert (older + items)[|older| + index - 1] == items[index - 1];
      EventStartOfSuffix(older, items, index - 1);
    }
  }

  method FindEventStart(items: seq<Item>, index: nat) returns (i: nat)
    requires index < |items|
    ensures i == EventStart(items, index)
  {
    i := index;
    while i > 0 && items[i - 1].seqNo == items[index].seqNo
      invariant i <= index && items[i].seqNo == items[index].seqNo
      invariant EventStart(items, i) == EventStart(items, index)
    {
      i := i - 1;
    }
  }

  // ---- Turn starts -------------------------------------------------------------------------------

  predicate TurnStartAt(items: seq<Item>, i: nat)
    requires i < |items|
  {
    IsTurnStart(items[i], if i > 0 then Some(items[i - 1]) else None)
  }

  /** The turn starts among the first `n` items. The first item is one only if no items lie before it. */
  function TurnStarts(items: seq<Item>, olderExists: bool, n: nat): (starts: seq<nat>)
    requires n <= |items|
    ensures forall i <- starts :: i < n
    decreases n
  {
    if n == 0 then []
    else TurnStarts(items, olderExists, n - 1) +
         if TurnStartAt(items, n - 1) && (n - 1 > 0 || !olderExists) then [n - 1] else []
  }

  method FindTurnStarts(items: seq<Item>, olderExists: bool) returns (starts: seq<nat>)
    ensures starts == TurnStarts(items, olderExists, |items|)
  {
    starts := [];
    for i := 0 to |items|
      invariant starts == TurnStarts(items, olderExists, i)
    {
      if TurnStartAt(items, i) && (i > 0 || !olderExists) {
        starts := starts + [i];
      }
    }
  }

  /**
   * What the starts found are: a person's item with something in front of it that is not the person's, or with
   * nothing in front of it anywhere.
   */
  lemma {:induction false} TurnStartsAre(items: seq<Item>, olderExists: bool, n: nat, i: nat)
    requires n <= |items|
    ensures i in TurnStarts(items, olderExists, n) <==>
      i < n && items[i].person && if i > 0 then !items[i - 1].person else !olderExists
  {
    if n > 0 {
      TurnStartsAre(items, olderExists, n - 1, i);
    }
  }

  lemma {:induction false} TurnStartsAscend(items: seq<Item>, olderExists: bool, n: nat)
    requires n <= |items|
    ensures forall i, j :: 0 <= i < j < |TurnStarts(items, olderExists, n)| ==>
      TurnStarts(items, olderExists, n)[i] < TurnStarts(items, olderExists, n)[j]
  {
    if n > 0 {
      TurnStartsAscend(items, olderExists, n - 1);
      var found := TurnStarts(items, olderExists, n - 1);
      forall i | 0 <= i < |found| ensures found[i] < n - 1 {
        assert found[i] in found;
      }
    }
  }

  /** A turn starts between events. */
  lemma TurnStartIsBoundary(items: seq<Item>, i: nat)
    requires Coherent(items) && i < |items| && TurnStartAt(items, i)
    ensures Boundary(items, i)
  {
  }

  function Shift(starts: seq<nat>, offset: nat): seq<nat> {
    seq(|starts|, i requires 0 <= i < |starts| => starts[i] + offset)
  }

  /**
   * Reading only the newer items finds the same turn starts, apart from their very first item, whose
   * predecessor is not known.
   */
  lemma {:induction false} StartsOfSuffix(older: seq<Item>, items: seq<Item>, n: nat)
    requires 0 < n <= |items|
    ensures TurnStarts(older + items, false, |older| + n) ==
      TurnStarts(older + items, false, |older| + 1) + Shift(TurnStarts(items, true, n), |older|)
    decreases n
  {
    var all, k := older + items, |older|;
    if n == 1 {
      assert TurnStarts(items, true, 0) == [];
      assert TurnStarts(items, true, 1) == [];
      assert Shift([], k) == [];
    } else {
      StartsOfSuffix(older, items, n - 1);
      assert all[k + n - 1] == items[n - 1] && all[k + n - 2] == items[n - 2];
      var found := TurnStarts(items, true, n - 1);
      assert TurnStartAt(all, k + n - 1) == TurnStartAt(items, n - 1);
      if TurnStartAt(items, n - 1) {
        assert Shift(found + [n - 1], k) == Shift(found, k) + [k + n - 1];
      } else {
        assert found + [] == found;
      }
    }
  }

  /** Where the last `turns` turns begin: the turns-th last turn start, or the beginning. */
  function LastTurns(items: seq<Item>, turns: nat): (start: nat)
    requires turns > 0
    ensures start <= |items|
  {
    var starts := TurnStarts(items, false, |items|);
    if |starts| >= turns then assert starts[|starts| - turns] in starts; starts[|starts| - turns] else 0
  }

  /**
   * The last `turns` turns: from where they begin there are exactly that many turn starts; or all the
   * items, when they hold fewer.
   */
  lemma LastTurnsAre(items: seq<Item>, turns: nat)
    requires turns > 0
    ensures var (starts, start) := (TurnStarts(items, false, |items|), LastTurns(items, turns));
      if |starts| >= turns then
        start in starts && forall k :: 0 <= k < |starts| ==> (starts[k] >= start <==> k >= |starts| - turns)
      else start == 0
  {
    TurnStartsAscend(items, false, |items|);
    hide TurnStarts;
  }

  /** How many runs of the person's items there are among the first `n`. */
  function PersonRuns(items: seq<Item>, n: nat): nat
    requires n <= |items|
  {
    if n == 0 then 0
    else PersonRuns(items, n - 1) + if items[n - 1].person && (n > 1 ==> !items[n - 2].person) then 1 else 0
  }

  lemma {:induction false} StartsCount(items: seq<Item>, olderExists: bool, n: nat)
    requires n <= |items|
    ensures PersonRuns(items, n)
         == |TurnStarts(items, olderExists, n)| + if olderExists && n > 0 && items[0].person then 1 else 0
  {
    if n > 0 {
      StartsCount(items, olderExists, n - 1);
    }
  }

  lemma LastStart(items: seq<Item>, start: nat)
    requires start < |items| && TurnStartAt(items, start)
    ensures var upto := TurnStarts(items, false, start + 1); upto != [] && upto[|upto| - 1] == start
  {
  }

  /** The starts up to one of them, and those behind it. */
  lemma StartsUpTo(items: seq<Item>, k: nat)
    requires k < |TurnStarts(items, false, |items|)| && TurnStarts(items, false, |items|)[k] < |items|
    ensures var start := TurnStarts(items, false, |items|)[k];
      && TurnStartAt(items, start)
      && |TurnStarts(items[start..], true, |items| - start)| == |TurnStarts(items, false, |items|)| - k - 1
  {
    hide TurnStarts;
    var starts := TurnStarts(items, false, |items|);
    var start := starts[k];
    assert start in starts;
    TurnStartsAre(items, false, |items|, start);
    TurnStartsAscend(items, false, |items|);
    var (older, newer) := (items[..start], items[start..]);
    assert older + newer == items;
    StartsOfSuffix(older, newer, |newer|);
    var upto := TurnStarts(items, false, start + 1);
    assert starts == upto + Shift(TurnStarts(newer, true, |newer|), start);
    LastStart(items, start);
    assert starts[|upto| - 1] == start;
    assert |upto| - 1 == k;
  }

  /** The items behind a turn start are as many turns as there are starts from it on. */
  lemma RunsBehind(items: seq<Item>, k: nat)
    requires k < |TurnStarts(items, false, |items|)|
    ensures var starts := TurnStarts(items, false, |items|);
      var start := starts[k];
      && start < |items| && items[start].person && (start > 0 ==> !items[start - 1].person)
      && PersonRuns(items[start..], |items| - start) == |starts| - k
  {
    var starts := TurnStarts(items, false, |items|);
    assert starts[k] in starts;
    hide TurnStarts, PersonRuns;
    StartsUpTo(items, k);
    StartsCount(items[starts[k]..], true, |items| - starts[k]);
  }

  /**
   * The last `turns` turns: the smallest end of the items that begins with a person's item behind another's and
   * holds that many runs of the person's items; all items when they hold fewer.
   */
  lemma LastTurnsHold(items: seq<Item>, turns: nat)
    requires turns > 0
    ensures var start := LastTurns(items, turns);
      if PersonRuns(items, |items|) >= turns then
        && start < |items| && items[start].person && (start > 0 ==> !items[start - 1].person)
        && PersonRuns(items[start..], |items| - start) == turns
      else start == 0
  {
    hide TurnStarts, PersonRuns;
    var starts := TurnStarts(items, false, |items|);
    StartsCount(items, false, |items|);
    if |starts| >= turns {
      RunsBehind(items, |starts| - turns);
    }
  }

  /** Only one end of the items begins so and holds that many. */
  lemma LastTurnsAreOne(items: seq<Item>, turns: nat, start: nat)
    requires turns > 0 && start < |items| && items[start].person && (start > 0 ==> !items[start - 1].person)
    requires PersonRuns(items[start..], |items| - start) == turns
    ensures LastTurns(items, turns) == start
  {
    var starts := TurnStarts(items, false, |items|);
    TurnStartsAre(items, false, |items|, start);
    hide TurnStarts, PersonRuns;
    var k :| 0 <= k < |starts| && starts[k] == start;
    RunsBehind(items, k);
  }

  lemma LastTurnsOfSuffix(older: seq<Item>, items: seq<Item>, turns: nat)
    requires turns > 0 && |TurnStarts(items, true, |items|)| >= turns
    ensures var starts := TurnStarts(items, true, |items|);
      LastTurns(older + items, turns) == |older| + starts[|starts| - turns]
  {
    assert items != [];
    StartsOfSuffix(older, items, |items|);
  }

  // ---- Sizes -------------------------------------------------------------------------------------

  function Size(items: seq<Item>, size: Item -> nat): nat {
    if items == [] then 0 else size(items[0]) + Size(items[1..], size)
  }

  lemma {:induction false} SizeConcat(a: seq<Item>, b: seq<Item>, size: Item -> nat)
    ensures Size(a + b, size) == Size(a, size) + Size(b, size)
  {
    if a == [] {
      assert a + b == b;
    } else {
      assert (a + b)[1..] == a[1..] + b;
      SizeConcat(a[1..], b, size);
    }
  }

  /** The size of some items is the sum of theirs. */
  lemma SizeIsSum(items: seq<Item>, item: Item, size: Item -> nat)
    ensures Size([], size) == 0 && Size([item], size) == size(item)
    ensures Size(items + [item], size) == Size(items, size) + size(item)
  {
    SizeConcat(items, [item], size);
  }

  lemma SizeSuffix(items: seq<Item>, i: nat, j: nat, size: Item -> nat)
    requires i <= j <= |items|
    ensures Size(items[j..], size) <= Size(items[i..], size)
  {
    assert items[i..] == items[i..j] + items[j..];
    SizeConcat(items[i..j], items[j..], size);
  }

  method TotalSize(items: seq<Item>, size: Item -> nat) returns (total: nat)
    ensures total == Size(items, size)
  {
    total := 0;
    for i := 0 to |items|
      invariant total == Size(items[..i], size)
    {
      assert items[..i + 1] == items[..i] + [items[i]];
      SizeConcat(items[..i], [items[i]], size);
      total := total + size(items[i]);
    }
    assert items[..|items|] == items;
  }

  /** A page may start at `r` for its size: what is left fits, or is just the newest event. */
  predicate Fits(items: seq<Item>, r: nat, maxBytes: nat, size: Item -> nat)
    requires r <= |items|
  {
    Size(items[r..], size) <= maxBytes || (r < |items| && r == EventStart(items, |items| - 1))
  }

  /** No boundary lies inside an event. */
  lemma {:induction false} InsideEvent(items: seq<Item>, index: nat, k: nat)
    requires index < |items| && EventStart(items, index) < k <= index
    ensures items[k - 1].seqNo == items[k].seqNo
  {
    if k < index {
      InsideEvent(items, index - 1, k);
    }
  }

  lemma {:induction false} NewestEvent(items: seq<Item>, start: nat)
    requires start < |items| && Boundary(items, start)
    ensures start <= EventStart(items, |items| - 1)
  {
    if EventStart(items, |items| - 1) < start {
      InsideEvent(items, |items| - 1, start);
    }
  }

  lemma {:induction false} WithinNewest(items: seq<Item>, index: nat, i: nat)
    requires i <= index < |items| && forall k :: i <= k <= index ==> items[k].seqNo == items[i].seqNo
    ensures EventStart(items, index) <= i
  {
    if i < index {
      assert items[index - 1].seqNo == items[index].seqNo;
      WithinNewest(items, index - 1, i);
    }
  }

  /** Where the event of `items[i - 1]` ends; where it starts when it is the newest. */
  method SkipEvent(items: seq<Item>, i: nat, start: nat) returns (r: nat)
    requires start < i <= |items| && Boundary(items, start)
    ensures start <= r < |items| && Boundary(items, r)
    ensures i <= r || r == EventStart(items, |items| - 1)
    ensures forall k :: i <= k < r ==> !Boundary(items, k)
  {
    var next := i;
    while next < |items| && items[next].seqNo == items[i - 1].seqNo
      invariant i <= next <= |items|
      invariant forall k :: i <= k < next ==> items[k].seqNo == items[i - 1].seqNo
    {
      next := next + 1;
    }
    if next >= |items| {
      r := FindEventStart(items, |items| - 1);
      NewestEvent(items, start);
      WithinNewest(items, |items| - 1, i - 1);
    } else {
      r := next;
    }
  }

  /** Once the items from `i - 1` on are too large, `r` is the first place the page can start. */
  lemma OverBudget(items: seq<Item>, start: nat, i: nat, r: nat, maxBytes: nat, size: Item -> nat)
    requires start < i <= |items| && start <= r < |items| && Boundary(items, r)
    requires Size(items[i - 1..], size) > maxBytes && Size(items[i..], size) <= maxBytes
    requires i <= r || r == EventStart(items, |items| - 1)
    requires forall k :: i <= k < r ==> !Boundary(items, k)
    ensures Fits(items, r, maxBytes, size)
    ensures forall k :: start <= k < r && Boundary(items, k) ==> !Fits(items, k, maxBytes, size)
  {
    hide Size;
    NewestEvent(items, r);
    if i <= r {
      SizeSuffix(items, i, r, size);
    }
    forall k | start <= k < r && Boundary(items, k) ensures !Fits(items, k, maxBytes, size) {
      if k < i {
        SizeSuffix(items, k, i - 1, size);
      }
    }
  }

  /** The first event boundary from `start` on at which a page may begin for its size. */
  method FitBytes(items: seq<Item>, start: nat, maxBytes: nat, size: Item -> nat) returns (r: nat)
    requires start <= |items| && Boundary(items, start) && (items != [] ==> start < |items|)
    ensures start <= r <= |items| && Boundary(items, r) && (items != [] ==> r < |items|)
    ensures Fits(items, r, maxBytes, size)
    ensures forall k :: start <= k < r && Boundary(items, k) ==> !Fits(items, k, maxBytes, size)
  {
    var total, i := 0, |items|;
    assert items[|items|..] == [];
    while i > start
      invariant start <= i <= |items|
      invariant total == Size(items[i..], size) && total <= maxBytes
    {
      assert items[i - 1..][1..] == items[i..];
      total := total + size(items[i - 1]);
      if total > maxBytes {
        r := SkipEvent(items, i, start);
        OverBudget(items, start, i, r, maxBytes, size);
        return;
      }
      i := i - 1;
    }
    return start;
  }
}
