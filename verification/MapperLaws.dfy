/** What the mapping promises about ids, about light and full items, and about whole logs. */
module MapperLaws {
  import opened Options
  import opened Utf8
  import opened Mapper
  import Decimal

  lemma HashOfId(seqNo: nat, n: nat)
    ensures var id := ItemId(seqNo, n); var k := HashAt(id);
      k == |Decimal.Print(seqNo)| && id[..k] == Decimal.Print(seqNo) && id[k + 1..] == Decimal.Print(n)
  {
    var id, a := ItemId(seqNo, n), Decimal.Print(seqNo);
    var k := HashAt(id);
    assert id[|a|] == '#';
    assert forall i :: 0 <= i < |a| ==> id[i] == a[i] && id[i] != '#';
    assert k == |a|;
  }

  /** Reading the seq off an id inverts making the id, for every seq a JavaScript number can hold exactly. */
  lemma ItemSeqOfId(seqNo: nat, n: nat)
    ensures ItemSeqOf(ItemId(seqNo, n)) == if 0 < seqNo <= MAX_SAFE_INTEGER then Some(seqNo) else None
  {
    HashOfId(seqNo, n);
    Decimal.ValueOfPrint(seqNo);
  }

  lemma ItemIdInjective(seqA: nat, a: nat, seqB: nat, b: nat)
    requires ItemId(seqA, a) == ItemId(seqB, b)
    ensures seqA == seqB && a == b
  {
    HashOfId(seqA, a);
    HashOfId(seqB, b);
    Decimal.PrintInjective(seqA, seqB);
    Decimal.PrintInjective(a, b);
  }

  /** Every item of an event carries its seq, its position in its id, and the event's person mark. */
  lemma ItemShape(event: Event, full: bool, n: nat)
    requires n < |ItemsOf(event, full)|
    ensures var item := ItemsOf(event, full)[n];
      item.seqNo == event.seqNo + 1 && item.id == ItemId(event.seqNo + 1, n) && item.person == FromPerson(event)
  {
    hide Drafts;
  }

  /** The text budget of an item's kind. */
  function BudgetOf(kind: Kind): nat { if kind == ToolResultKind then 4 * 1024 else 24 * 1024 }

  /**
   * `light` is `full` with its text and tool input cut for display; `full_size` is set exactly when that
   * changed something.
   */
  ghost predicate LightOf(light: Item, full: Item) {
    && light.(text := full.text, toolInput := full.toolInput, fullSize := None) == full
    && (full.text.Some? ==>
        && light.text == Some(TruncateText(full.text.value, BudgetOf(full.kind), full.kind == ToolResultKind).text)
        && var length := Utf8Length(full.text.value);
           light.fullSize == if length > BudgetOf(full.kind) then Some(length) else None)
    && (full.text.None? ==> light.text.None?)
    && (full.toolInput.Some? ==>
        && light.toolInput == Some(LightValue(full.toolInput.value))
        && (light.fullSize.Some? <==> HasLongString(full.toolInput.value)))
    && (full.toolInput.None? ==> light.toolInput.None?)
    && (full.text.None? && full.toolInput.None? ==> light.fullSize.None?)
  }

  lemma RenderLight(draft: Draft, seqNo: nat, n: nat, ts: int, person: bool)
    requires draft.Words? ==> draft.kind != ToolResultKind
    ensures LightOf(Render(draft, seqNo, n, ts, person, false), Render(draft, seqNo, n, ts, person, true))
  {
    match draft
    case Words(_, _, text) => TruncationIsLongestPrefix(text, TEXT_LIMIT_BYTES, false);
    case Use(_, input, _, _) => if !HasLongString(input) { LightValueKeepsShort(input); }
    case Output(_, _, text) => TruncationIsLongestPrefix(text, TOOL_OUTPUT_LIMIT_BYTES, true);
    case Picture(_, _, _) =>
  }

  /** The number in a note is the decimal digits of the size. */
  lemma NumberIsPrinted(n: nat)
    ensures |NumberText(n)| == |Decimal.Print(n)|
    ensures forall i :: 0 <= i < |NumberText(n)| ==> NumberText(n)[i] == Decimal.Print(n)[i] as int
  {
  }

  /** What a cut text says of itself: that it was cut, for tool output that a click shows it, and its size. */
  lemma NoteSays(size: nat, toolOutput: bool)
    ensures TruncationNote(size, toolOutput)
         == [0x2026, 0xFF08, 0x5DF2, 0x622A, 0x65AD, 0xFF0C]
          + (if toolOutput then [0x70B9, 0x5F00, 0x770B, 0x5168, 0x6587, 0xFF0C] else [])
          + [0x5171, 0x20] + NumberText(size) + [0x20, 0x5B57, 0x8282, 0xFF09]
  {
  }

  /** The names of known tools are capitalised, those of others are kept. */
  lemma ToolNamesAre(name: string)
    ensures MapToolName("bash") == "Bash" && MapToolName("read") == MapToolName("read_image") == "Read"
    ensures MapToolName("edit") == "Edit" && MapToolName("write") == "Write" && MapToolName("grep") == "Grep"
    ensures MapToolName("glob") == "Glob" && MapToolName("todo_write") == "TodoWrite"
    ensures MapToolName("web_fetch") == "WebFetch" && MapToolName("web_search") == "WebSearch"
    ensures MapToolName("ask_user_question") == "AskUserQuestion"
    ensures MapToolName(name) != name ==>
      name in {"bash", "read", "edit", "write", "grep", "glob", "web_fetch", "web_search", "todo_write",
               "ask_user_question", "read_image"}
  {
  }

  /** The text is a string somewhere in the value. */
  ghost predicate Contains(v: Json, t: Text) {
    match v
    case JString(text) => text == t
    case JArray(elems) => exists i :: 0 <= i < |elems| && Contains(elems[i], t)
    case JObject(fields) => exists i :: 0 <= i < |fields| && Contains(fields[i].value, t)
    case JOther(_) => false
  }

  /** `light` is `v` with every string in it cut to what fits, and otherwise the same. */
  ghost predicate CutEverywhere(v: Json, light: Json)
    decreases v
  {
    match v
    case JString(t) => light == JString(TruncateText(t, 24 * 1024, false).text)
    case JArray(elems) =>
      && light.JArray? && |light.elems| == |elems|
      && forall i :: 0 <= i < |elems| ==> CutEverywhere(elems[i], light.elems[i])
    case JObject(fields) =>
      && light.JObject? && |light.fields| == |fields|
      && forall i :: 0 <= i < |fields| ==>
           light.fields[i].key == fields[i].key && CutEverywhere(fields[i].value, light.fields[i].value)
    case JOther(_) => light == v
  }

  lemma {:induction false} LightIsCut(v: Json)
    ensures CutEverywhere(v, LightValue(v))
  {
    match v
    case JArray(elems) =>
      forall i | 0 <= i < |elems| ensures CutEverywhere(elems[i], LightValue(elems[i])) {
        LightIsCut(elems[i]);
      }
    case JObject(fields) =>
      forall i | 0 <= i < |fields| ensures CutEverywhere(fields[i].value, LightValue(fields[i].value)) {
        LightIsCut(fields[i].value);
      }
    case _ =>
  }

  /** A value is cut exactly when a string at some depth is longer than 24 KB. */
  lemma {:induction false} LongStringIsFound(v: Json)
    ensures HasLongString(v) <==> exists t :: Contains(v, t) && Utf8Length(t) > 24 * 1024
  {
    match v
    case JString(t) => assert Contains(v, t);
    case JArray(elems) =>
      forall i | 0 <= i < |elems|
        ensures HasLongString(elems[i]) <==> exists t :: Contains(elems[i], t) && Utf8Length(t) > 24 * 1024
      {
        LongStringIsFound(elems[i]);
      }
      if i :| 0 <= i < |elems| && HasLongString(elems[i]) {
        var t :| Contains(elems[i], t) && Utf8Length(t) > 24 * 1024;
        assert Contains(v, t);
      }
    case JObject(fields) =>
      forall i | 0 <= i < |fields|
        ensures HasLongString(fields[i].value)
           <==> exists t :: Contains(fields[i].value, t) && Utf8Length(t) > 24 * 1024
      {
        LongStringIsFound(fields[i].value);
      }
      if i :| 0 <= i < |fields| && HasLongString(fields[i].value) {
        var t :| Contains(fields[i].value, t) && Utf8Length(t) > 24 * 1024;
        assert Contains(v, t);
      }
    case JOther(_) =>
  }

  lemma {:induction false} UserBlocksKinds(shown: Shown, blocks: seq<Block>, first: bool)
    ensures forall d <- UserBlocks(shown, blocks, first).drafts :: d.Words? ==> d.kind == TextKind
  {
    if blocks != [] {
      UserBlocksKinds(shown, blocks[1..], first && !blocks[0].TextBlock?);
    }
  }

  lemma {:induction false} ListedKinds(listed: seq<Attachment>)
    ensures forall d <- ListedPictures(listed) :: d.Picture?
  {
    if listed != [] {
      ListedKinds(listed[..|listed| - 1]);
    }
  }

  lemma {:induction false} AssistantKinds(blocks: seq<Block>)
    ensures forall d <- AssistantBlocks(blocks) :: d.Words? ==> d.kind != ToolResultKind
  {
    if blocks != [] {
      AssistantKinds(blocks[..|blocks| - 1]);
    }
  }

  lemma {:induction false} ResultKinds(blocks: seq<Block>, callId: Option<string>)
    ensures forall d <- ResultPictures(blocks, callId) :: d.Picture?
  {
    if blocks != [] {
      ResultKinds(blocks[..|blocks| - 1], callId);
    }
  }

  lemma DraftKinds(event: Event)
    ensures forall d <- Drafts(event) :: d.Words? ==> d.kind != ToolResultKind
  {
    match event.payload
    case UserMessage(shown, blocks) =>
      UserBlocksKinds(shown, blocks, true);
      ListedKinds(UserBlocks(shown, blocks, true).listed);
    case AssistantMessage(blocks) => AssistantKinds(blocks);
    case ToolResult(callId, _, _, blocks) => ResultKinds(blocks, callId);
    case _ =>
  }

  /** Pages and full lookups agree item by item: same number, order, ids, kinds and roles, cut texts aside. */
  lemma LightAlignsWithFull(event: Event)
    ensures |MapEvent(event)| == |ItemsOf(event, true)|
    ensures forall n :: 0 <= n < |MapEvent(event)| ==> LightOf(MapEvent(event)[n], ItemsOf(event, true)[n])
  {
    DraftKinds(event);
    var drafts := Drafts(event);
    forall n | 0 <= n < |MapEvent(event)| ensures LightOf(MapEvent(event)[n], ItemsOf(event, true)[n]) {
      assert drafts[n] in drafts;
      RenderLight(drafts[n], event.seqNo + 1, n, event.time, FromPerson(event));
    }
  }

  lemma {:induction false} FindByPosition(items: seq<Item>, n: nat)
    requires n < |items|
    requires forall i, j :: 0 <= i < j < |items| ==> items[i].id != items[j].id
    ensures FindItem(items, items[n].id) == Some(items[n])
  {
    if n > 0 {
      FindByPosition(items[1..], n - 1);
    }
  }

  /** Looking up the id of any listed item finds that item in full, as long as the seq is a safe integer. */
  lemma FullItemOfListed(event: Event, n: nat)
    requires n < |MapEvent(event)|
    ensures FullItem(event, MapEvent(event)[n].id) ==
      if event.seqNo + 1 <= MAX_SAFE_INTEGER then Some(ItemsOf(event, true)[n]) else None
  {
    LightAlignsWithFull(event);
    var full := ItemsOf(event, true);
    ItemShape(event, false, n);
    ItemShape(event, true, n);
    ItemSeqOfId(event.seqNo + 1, n);
    forall i, j | 0 <= i < j < |full| ensures full[i].id != full[j].id {
      ItemShape(event, true, i);
      ItemShape(event, true, j);
      if full[i].id == full[j].id {
        ItemIdInjective(event.seqNo + 1, i, event.seqNo + 1, j);
      }
    }
    FindByPosition(full, n);
  }

  /** An id no item of the event carries finds nothing. */
  lemma {:induction false} FindMissing(items: seq<Item>, id: string)
    requires forall i :: 0 <= i < |items| ==> items[i].id != id
    ensures FindItem(items, id) == None
  {
    if items != [] {
      FindMissing(items[1..], id);
    }
  }

  /** Looking up an id that is not listed finds nothing. */
  lemma FullItemOfUnlisted(event: Event, id: string)
    requires forall n :: 0 <= n < |MapEvent(event)| ==> MapEvent(event)[n].id != id
    ensures FullItem(event, id) == None
  {
    LightAlignsWithFull(event);
    var full := ItemsOf(event, true);
    forall n | 0 <= n < |full| ensures full[n].id != id {
      assert LightOf(MapEvent(event)[n], full[n]);
    }
    FindMissing(full, id);
  }

  // ---- Whole logs --------------------------------------------------------------------------------

  /** A log whose events are numbered from `first` without holes. */
  ghost predicate Numbered(events: seq<Event>, first: int) {
    forall i :: 0 <= i < |events| ==> events[i].seqNo == first + i
  }

  lemma {:induction false} MapEventsConcat(a: seq<Event>, b: seq<Event>)
    ensures MapEvents(a + b) == MapEvents(a) + MapEvents(b)
  {
    if b == [] {
      assert a + b == a;
    } else {
      var b' := b[..|b| - 1];
      hide MapEvent;
      var last := MapEvent(b[|b| - 1]);
      MapEventsConcat(a, b');
      assert (a + b)[..|a + b| - 1] == a + b' && (a + b)[|a + b| - 1] == b[|b| - 1];
      assert MapEvents(a) + MapEvents(b') + last == MapEvents(a) + (MapEvents(b') + last);
    }
  }

  lemma MapEventsOne(e: Event)
    ensures MapEvents([e]) == MapEvent(e)
  {
    assert [e][..0] == [];
  }

  /** Items come in event order: seqs never decrease and lie in the numbers of the mapped events. */
  lemma {:induction false} MapEventsOrdered(events: seq<Event>, first: nat)
    requires Numbered(events, first)
    ensures forall i :: 0 <= i < |MapEvents(events)| ==> first < MapEvents(events)[i].seqNo <= first + |events|
    ensures forall i, j :: 0 <= i <= j < |MapEvents(events)| ==>
      MapEvents(events)[i].seqNo <= MapEvents(events)[j].seqNo
  {
    if events != [] {
      var last := events[|events| - 1];
      MapEventsOrdered(events[..|events| - 1], first);
      forall n | 0 <= n < |MapEvent(last)| ensures MapEvent(last)[n].seqNo == last.seqNo + 1 {
        ItemShape(last, false, n);
      }
      hide MapEvent;
    }
  }

  lemma ListedShape(event: Event, n: nat)
    requires n < |MapEvent(event)|
    ensures MapEvent(event)[n].seqNo == event.seqNo + 1 && MapEvent(event)[n].id == ItemId(event.seqNo + 1, n)
  {
    hide ItemId, Render, Drafts;
    ItemShape(event, false, n);
  }

  lemma {:induction false} IdNamesSeq(events: seq<Event>, first: nat, i: nat)
    requires Numbered(events, first) && i < |MapEvents(events)|
    ensures exists n: nat :: MapEvents(events)[i].id == ItemId(MapEvents(events)[i].seqNo, n)
  {
    hide ItemId, Render, Drafts;
    var init, last := events[..|events| - 1], events[|events| - 1];
    var k := |MapEvents(init)|;
    if i < k {
      IdNamesSeq(init, first, i);
      assert MapEvents(events)[i] == MapEvents(init)[i];
    } else {
      ItemShape(last, false, i - k);
      assert MapEvents(events)[i].id == ItemId(MapEvents(events)[i].seqNo, i - k);
    }
  }

  lemma IdsDiffer(s: nat, m: nat, t: nat, n: nat)
    requires s != t || m != n
    ensures ItemId(s, m) != ItemId(t, n)
  {
    hide ItemId;
    if ItemId(s, m) == ItemId(t, n) {
      ItemIdInjective(s, m, t, n);
    }
  }

  /** No id is used twice in a log. */
  lemma {:induction false} IdsAreUnique(events: seq<Event>, first: nat, i: nat, j: nat)
    requires Numbered(events, first)
    requires i < j < |MapEvents(events)|
    ensures MapEvents(events)[i].id != MapEvents(events)[j].id
  {
    var init, last := events[..|events| - 1], events[|events| - 1];
    var items, a, b := MapEvents(events), MapEvents(init), MapEvent(last);
    assert items == a + b;
    hide MapEvents, MapEvent, ItemId;
    if j < |a| {
      IdsAreUnique(init, first, i, j);
    } else {
      ListedShape(last, j - |a|);
      if i < |a| {
        IdNamesSeq(init, first, i);
        MapEventsOrdered(init, first);
        var n: nat :| a[i].id == ItemId(a[i].seqNo, n);
        IdsDiffer(a[i].seqNo, n, last.seqNo + 1, j - |a|);
      } else {
        ListedShape(last, i - |a|);
        IdsDiffer(last.seqNo + 1, i - |a|, last.seqNo + 1, j - |a|);
      }
    }
  }
}
