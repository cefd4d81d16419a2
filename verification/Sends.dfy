/** Deduplicated sends: deliveries remembered by client message id, oldest forgotten first. */
module Sends {
  const MAX_REMEMBERED_SENDS: nat := 500

  datatype Fate = InFlight | Delivered | Failed

  datatype Delivery = Delivery(id: string, fate: Fate)

  /** One remembered delivery; the table keeps its entries in the order they were added. */
  datatype Entry = Entry(id: string, delivery: nat)

  datatype Book = Book(table: seq<Entry>, deliveries: seq<Delivery>)

  /** Where an id stands in the table; its length when nowhere. */
  function IndexOf(table: seq<Entry>, id: string): (p: nat)
    ensures p <= |table| && (p < |table| ==> table[p].id == id)
    ensures forall q :: 0 <= q < p ==> table[q].id != id
  {
    if table == [] || table[0].id == id then 0 else 1 + IndexOf(table[1..], id)
  }

  function Newest(table: seq<Entry>): (r: seq<Entry>)
    ensures r == if |table| > MAX_REMEMBERED_SENDS then table[|table| - MAX_REMEMBERED_SENDS..] else table
  {
    if |table| > MAX_REMEMBERED_SENDS then Newest(table[1..]) else table
  }

  function Accept(s: Book, id: string): (Book, nat) {
    var p := IndexOf(s.table, id);
    if p < |s.table| then (s, s.table[p].delivery)
    else
      var d := |s.deliveries|;
      (Book(Newest(s.table + [Entry(id, d)]), s.deliveries + [Delivery(id, InFlight)]), d)
  }

  /** The table without the entry of an id, if that entry is of delivery `d`. */
  function Forget(table: seq<Entry>, id: string, d: nat): seq<Entry> {
    var p := IndexOf(table, id);
    if p < |table| && table[p].delivery == d then table[..p] + table[p + 1..] else table
  }

  function Ended(s: Book, d: nat, ok: bool): Book
    requires d < |s.deliveries|
  {
    if ok then s.(deliveries := s.deliveries[d := Delivery(s.deliveries[d].id, Delivered)])
    else Book(Forget(s.table, s.deliveries[d].id, d), s.deliveries[d := Delivery(s.deliveries[d].id, Failed)])
  }

  class SendTable {
    var table: seq<Entry>
    var deliveries: seq<Delivery>

    function View(): Book
      reads this
    {
      Book(table, deliveries)
    }

    constructor ()
      ensures View() == Book([], [])
    {
      table, deliveries := [], [];
    }

    method Send(id: string) returns (d: nat)
      modifies this
      ensures (View(), d) == Accept(old(View()), id)
    {
      var p := IndexOf(table, id);
      if p < |table| {
        return table[p].delivery;
      }
      d := |deliveries|;
      deliveries := deliveries + [Delivery(id, InFlight)];
      table := table + [Entry(id, d)];
      while |table| > MAX_REMEMBERED_SENDS
        invariant Newest(table) == Newest(old(table) + [Entry(id, d)])
        invariant deliveries == old(deliveries) + [Delivery(id, InFlight)]
      {
        table := table[1..];
      }
    }

    /** The delivery ended; when it failed, its own entry is forgotten. */
    method Settle(d: nat, ok: bool)
      requires d < |deliveries|
      modifies this
      ensures View() == Ended(old(View()), d, ok)
    {
      var id := deliveries[d].id;
      deliveries := deliveries[d := Delivery(id, if ok then Delivered else Failed)];
      if !ok {
        var p := IndexOf(table, id);
        if p < |table| && table[p].delivery == d {
          table := table[..p] + table[p + 1..];
        }
      }
    }
  }

  // ---- What is kept ------------------------------------------------------------------------------------

  function IdsAfter(deliveries: seq<Delivery>, i: nat): set<string> { set k | i < k < |deliveries| :: deliveries[k].id }

  predicate EntryOk(e: Entry, deliveries: seq<Delivery>) {
    e.delivery < |deliveries| && deliveries[e.delivery].id == e.id && deliveries[e.delivery].fate != Failed
  }

  ghost predicate TableOk(table: seq<Entry>, deliveries: seq<Delivery>) {
    && (forall p :: 0 <= p < |table| ==> EntryOk(table[p], deliveries))
    && (forall p, q :: 0 <= p < q < |table| ==> table[p].delivery < table[q].delivery && table[p].id != table[q].id)
  }

  /** A delivery is remembered, has failed, or was pushed out by newer ids. */
  ghost predicate Accounted(s: Book, i: nat)
    requires i < |s.deliveries|
  {
    || (exists p :: 0 <= p < |s.table| && s.table[p].delivery == i)
    || s.deliveries[i].fate == Failed
    || |IdsAfter(s.deliveries, i)| >= MAX_REMEMBERED_SENDS
  }

  ghost predicate Inv(s: Book) {
    && |s.table| <= MAX_REMEMBERED_SENDS && TableOk(s.table, s.deliveries)
    && forall i :: 0 <= i < |s.deliveries| ==> Accounted(s, i)
  }

  lemma CutOne(table: seq<Entry>, deliveries: seq<Delivery>, p: nat)
    requires TableOk(table, deliveries) && p < |table|
    ensures TableOk(table[..p] + table[p + 1..], deliveries)
    ensures forall e :: e in table[..p] + table[p + 1..] <==> e in table && e.delivery != table[p].delivery
  {
    var r := table[..p] + table[p + 1..];
    assert forall q :: 0 <= q < |r| ==> r[q] == table[if q < p then q else q + 1];
    forall q | 0 <= q < |r| ensures EntryOk(r[q], deliveries) {
      assert EntryOk(table[if q < p then q else q + 1], deliveries);
    }
    hide EntryOk;
    forall e | e in table && e.delivery != table[p].delivery ensures e in r {
      var q :| 0 <= q < |table| && table[q] == e;
      assert r[if q < p then q else q - 1] == e;
    }
  }

  /** A failure takes exactly its own delivery's entry out of the table. */
  lemma ForgetIs(table: seq<Entry>, deliveries: seq<Delivery>, d: nat)
    requires TableOk(table, deliveries) && d < |deliveries|
    ensures var r := Forget(table, deliveries[d].id, d);
      && |r| <= |table| && TableOk(r, deliveries)
      && forall e :: e in r <==> e in table && e.delivery != d
  {
    var p := IndexOf(table, deliveries[d].id);
    if p < |table| && table[p].delivery == d {
      CutOne(table, deliveries, p);
    } else {
      forall q | 0 <= q < |table| ensures table[q].delivery != d {
        assert EntryOk(table[q], deliveries);
      }
    }
  }

  /** The ids of distinct entries newer than `i` are that many newer ids. */
  lemma {:induction false} DistinctIds(table: seq<Entry>, deliveries: seq<Delivery>, i: nat, n: nat)
    returns (ids: set<string>)
    requires TableOk(table, deliveries) && n <= |table|
    requires forall p :: 0 <= p < n ==> table[p].delivery > i
    ensures |ids| == n && ids <= IdsAfter(deliveries, i)
    ensures forall id <- ids :: exists p :: 0 <= p < n && table[p].id == id
  {
    if n == 0 {
      ids := {};
    } else {
      var before := DistinctIds(table, deliveries, i, n - 1);
      assert EntryOk(table[n - 1], deliveries);
      ids := before + {table[n - 1].id};
    }
  }

  lemma Subset(a: set<string>, b: set<string>)
    requires a <= b
    ensures |a| <= |b|
  {
    assert b == a + (b - a);
  }

  /** When the oldest entry has to go, every id in the rest of the table is newer. */
  lemma EvictedByNewer(table: seq<Entry>, deliveries: seq<Delivery>)
    requires TableOk(table, deliveries) && |table| > MAX_REMEMBERED_SENDS
    ensures |IdsAfter(deliveries, table[0].delivery)| >= MAX_REMEMBERED_SENDS
  {
    var rest := table[1..];
    var ids := DistinctIds(rest, deliveries, table[0].delivery, |rest|);
    Subset(ids, IdsAfter(deliveries, table[0].delivery));
  }

  lemma SameIds(a: seq<Delivery>, b: seq<Delivery>, i: nat)
    requires |a| <= |b| && forall k :: 0 <= k < |a| ==> a[k].id == b[k].id
    ensures IdsAfter(a, i) <= IdsAfter(b, i) && (|a| == |b| ==> IdsAfter(a, i) == IdsAfter(b, i))
  {
    forall id | id in IdsAfter(a, i) ensures id in IdsAfter(b, i) {
      var k :| i < k < |a| && a[k].id == id;
      assert b[k].id == id;
    }
    forall id | id in IdsAfter(b, i) && |a| == |b| ensures id in IdsAfter(a, i) {
      var k :| i < k < |b| && b[k].id == id;
      assert a[k].id == id;
    }
  }

  lemma AddedOk(table: seq<Entry>, deliveries: seq<Delivery>, id: string)
    requires TableOk(table, deliveries) && forall p :: 0 <= p < |table| ==> table[p].id != id
    ensures TableOk(table + [Entry(id, |deliveries|)], deliveries + [Delivery(id, InFlight)])
  {
    forall p | 0 <= p < |table| ensures EntryOk(table[p], deliveries + [Delivery(id, InFlight)]) {
      assert EntryOk(table[p], deliveries);
    }
  }

  /** A delivery remembered before is still remembered, unless it was the one pushed out. */
  lemma StillAccounted(s: Book, t: Book, table: seq<Entry>, i: nat)
    requires i < |s.deliveries| <= |t.deliveries| && Accounted(s, i) && s.table <= table
    requires forall k :: 0 <= k < |s.deliveries| ==> t.deliveries[k] == s.deliveries[k]
    requires t.table == (if |table| > MAX_REMEMBERED_SENDS then table[1..] else table)
    requires |table| > MAX_REMEMBERED_SENDS ==>
      |IdsAfter(t.deliveries, table[0].delivery)| >= MAX_REMEMBERED_SENDS
    ensures Accounted(t, i)
  {
    SameIds(s.deliveries, t.deliveries, i);
    Subset(IdsAfter(s.deliveries, i), IdsAfter(t.deliveries, i));
    hide IdsAfter;
    if p :| 0 <= p < |s.table| && s.table[p].delivery == i {
      assert table[p] == s.table[p];
      assert |table| > MAX_REMEMBERED_SENDS && p > 0 ==> t.table[p - 1] == table[p];
      assert |table| <= MAX_REMEMBERED_SENDS ==> t.table[p] == table[p];
    }
  }

  lemma SendKeeps(s: Book, id: string)
    requires Inv(s)
    ensures Inv(Accept(s, id).0)
  {
    if IndexOf(s.table, id) == |s.table| {
      var t, n := Accept(s, id).0, |s.deliveries|;
      var table := s.table + [Entry(id, n)];
      AddedOk(s.table, s.deliveries, id);
      if |table| > MAX_REMEMBERED_SENDS {
        EvictedByNewer(table, t.deliveries);
        assert t.table == table[1..];
      }
      hide IdsAfter, IndexOf, EntryOk;
      forall i | 0 <= i < |t.deliveries| ensures Accounted(t, i) {
        if i < n {
          StillAccounted(s, t, table, i);
        } else {
          assert t.table[|t.table| - 1].delivery == i;
        }
      }
    }
  }

  lemma SettleKeeps(s: Book, d: nat, ok: bool)
    requires Inv(s) && d < |s.deliveries| && s.deliveries[d].fate == InFlight
    ensures Inv(Ended(s, d, ok))
  {
    var t := Ended(s, d, ok);
    ForgetIs(s.table, s.deliveries, d);
    forall p | 0 <= p < |t.table| ensures EntryOk(t.table[p], t.deliveries) {
      assert t.table[p] in t.table;
    }
    forall i | 0 <= i < |t.deliveries| ensures Accounted(t, i) {
      assert Accounted(s, i);
      SameIds(s.deliveries, t.deliveries, i);
      if p :| 0 <= p < |s.table| && s.table[p].delivery == i {
        assert i != d && !ok ==> s.table[p] in t.table;
      }
    }
  }

  // ---- All runs ----------------------------------------------------------------------------------------

  datatype Step = Sending(id: string) | Ending(d: nat, ok: bool)

  ghost predicate RunsTo(s: Book, steps: seq<Step>, t: Book)
    decreases steps
  {
    if steps == [] then s == t
    else match steps[0]
      case Sending(id) => RunsTo(Accept(s, id).0, steps[1..], t)
      case Ending(d, ok) =>
        && d < |s.deliveries|
        && s.deliveries[d].fate == InFlight
        && RunsTo(Ended(s, d, ok), steps[1..], t)
  }

  ghost predicate Reachable(s: Book) { exists steps :: RunsTo(Book([], []), steps, s) }

  lemma {:induction false} RunKeeps(s: Book, steps: seq<Step>, t: Book)
    requires Inv(s) && RunsTo(s, steps, t)
    ensures Inv(t)
    decreases steps
  {
    if steps != [] {
      hide Inv, Accept, Ended;
      match steps[0]
      case Sending(id) =>
        SendKeeps(s, id);
        RunKeeps(Accept(s, id).0, steps[1..], t);
      case Ending(d, ok) =>
        SettleKeeps(s, d, ok);
        RunKeeps(Ended(s, d, ok), steps[1..], t);
    }
  }

  /**
   * The source is asked to send an id again only when the earlier delivery failed or at least 500
   * newer distinct ids were accepted since; otherwise the caller gets the earlier delivery.
   */
  lemma SecondDelivery(s: Book, id: string, i: nat)
    requires Reachable(s) && i < |s.deliveries| && s.deliveries[i].id == id
    ensures var (t, d) := Accept(s, id);
      && (t.deliveries != s.deliveries ==>
        s.deliveries[i].fate == Failed || |IdsAfter(s.deliveries, i)| >= 500)
      && (t.deliveries == s.deliveries ==>
            t == s && d < |s.deliveries| && s.deliveries[d].id == id && s.deliveries[d].fate != Failed)
  {
    var steps :| RunsTo(Book([], []), steps, s);
    RunKeeps(Book([], []), steps, s);
    assert Accounted(s, i);
    if q :| 0 <= q < |s.table| && s.table[q].delivery == i {
      assert EntryOk(s.table[q], s.deliveries);
    }
    var p := IndexOf(s.table, id);
    assert p < |s.table| ==> EntryOk(s.table[p], s.deliveries);
  }

  /** The table never holds more than 500 entries, one for each id. */
  lemma TableStaysSmall(s: Book)
    requires Reachable(s)
    ensures |s.table| <= 500
    ensures forall p, q :: 0 <= p < q < |s.table| ==> s.table[p].id != s.table[q].id
  {
    var steps :| RunsTo(Book([], []), steps, s);
    RunKeeps(Book([], []), steps, s);
  }

  /** A failure forgets its own delivery and nothing else: never a newer retry under the same id. */
  lemma LateFailure(s: Book, d: nat, e: Entry)
    requires Reachable(s) && d < |s.deliveries| && s.deliveries[d].fate == InFlight
    ensures e in Ended(s, d, false).table <==> e in s.table && e.delivery != d
    ensures e in s.table && e.delivery != d ==> Accept(Ended(s, d, false), e.id).1 == e.delivery
  {
    var steps :| RunsTo(Book([], []), steps, s);
    RunKeeps(Book([], []), steps, s);
    SettleKeeps(s, d, false);
    ForgetIs(s.table, s.deliveries, d);
  }

  lemma ReachableOk(s: Book)
    requires Reachable(s)
    ensures Inv(s)
  {
    var steps :| RunsTo(Book([], []), steps, s);
    RunKeeps(Book([], []), steps, s);
  }

  /** An id never sent, or whose deliveries have all failed, is delivered; sending it again waits for that delivery. */
  lemma FreshIdIsDelivered(s: Book, id: string)
    requires Reachable(s) && forall d <- s.deliveries :: d.id == id ==> d.fate == Failed
    ensures var (t, d) := Accept(s, id);
      && t.deliveries == s.deliveries + [Delivery(id, InFlight)] && d == |s.deliveries|
      && Accept(t, id) == (t, d)
  {
    ReachableOk(s);
    forall q | 0 <= q < |s.table| ensures s.table[q].id != id {
      assert EntryOk(s.table[q], s.deliveries) && s.deliveries[s.table[q].delivery] in s.deliveries;
    }
    hide EntryOk, Accounted;
    var t := Accept(s, id).0;
    SendKeeps(s, id);
    var last := |t.table| - 1;
    assert t.table[last] == Entry(id, |s.deliveries|);
    forall q | 0 <= q < last ensures t.table[q].id != id {
      assert t.table[q].id != t.table[last].id;
    }
  }

  /** A delivery that ends well stays remembered; the others are as they were. */
  lemma EndedIs(s: Book, d: nat, ok: bool)
    requires Reachable(s) && d < |s.deliveries| && s.deliveries[d].fate == InFlight
    ensures var t := Ended(s, d, ok);
      && |t.deliveries| == |s.deliveries|
      && t.deliveries[d] == Delivery(s.deliveries[d].id, if ok then Delivered else Failed)
      && (forall i :: 0 <= i < |s.deliveries| && i != d ==> t.deliveries[i] == s.deliveries[i])
      && (ok ==> t.table == s.table)
  {
  }
}
