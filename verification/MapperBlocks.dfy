/** Which blocks of an event become which items, said of blocks and items alone. */
module MapperBlocks {
  import opened Options
  import opened Utf8
  import opened Mapper

  // ---- What an item shows ------------------------------------------------------------------------------------

  /** The item says a text, and nothing else. */
  predicate Says(item: Item, role: Role, kind: Kind, text: Text) {
    && item.role == role && item.kind == kind && item.text == Some(text) && item.fullSize.None?
    && item.toolName.None? && item.toolInput.None? && item.toolUseId.None? && item.isError.None? && item.image.None?
  }

  /** The item shows a picture, and nothing else. */
  predicate Pictures(item: Item, role: Role, info: ImageInfo, callId: Option<string>) {
    && item.role == role && item.kind == ImageKind && item.image == Some(info) && item.toolUseId == callId
    && item.text.None? && item.fullSize.None? && item.toolName.None? && item.toolInput.None? && item.isError.None?
  }

  /** A block that shows something: a text or a thought that is not blank, a tool call, a picture. */
  predicate Visible(block: Block) {
    match block
    case TextBlock(text, _) => exists k :: 0 <= k < |text| && !IsSpace(text[k])
    case ReasoningBlock(text) => exists k :: 0 <= k < |text| && !IsSpace(text[k])
    case ToolCallBlock(_, _, _, _) => true
    case ImageBlock(info) => info.Some?
    case OtherBlock => false
  }

  /** The blocks that pass, in order. */
  function Those(blocks: seq<Block>, pass: Block -> bool): seq<Block> {
    if blocks == [] then [] else (if pass(blocks[0]) then [blocks[0]] else []) + Those(blocks[1..], pass)
  }

  lemma {:induction false} ThoseConcat(a: seq<Block>, b: seq<Block>, pass: Block -> bool)
    ensures Those(a + b, pass) == Those(a, pass) + Those(b, pass)
  {
    if a == [] {
      assert a + b == b;
    } else {
      assert (a + b)[1..] == a[1..] + b;
      ThoseConcat(a[1..], b, pass);
    }
  }

  lemma ThoseLast(blocks: seq<Block>, pass: Block -> bool)
    requires blocks != []
    ensures var last := blocks[|blocks| - 1];
      Those(blocks, pass) == Those(blocks[..|blocks| - 1], pass) + if pass(last) then [last] else []
  {
    var last := blocks[|blocks| - 1];
    assert blocks == blocks[..|blocks| - 1] + [last];
    ThoseConcat(blocks[..|blocks| - 1], [last], pass);
    assert Those([last], pass) == if pass(last) then [last] else [];
  }

  // ---- Messages of the assistant -----------------------------------------------------------------------------

  ghost predicate AssistantShows(item: Item, block: Block) {
    match block
    case TextBlock(text, _) => Says(item, Assistant, TextKind, text)
    case ReasoningBlock(text) => Says(item, Assistant, Thinking, text)
    case ToolCallBlock(name, input, _, callId) =>
      && item.role == Assistant && item.kind == ToolUseKind && item.toolName == Some(MapToolName(name))
      && item.toolInput == Some(input) && item.toolUseId == callId
      && item.text.None? && item.fullSize.None? && item.isError.None? && item.image.None?
    case ImageBlock(info) => info.Some? && Pictures(item, Assistant, info.value, None)
    case OtherBlock => false
  }

  ghost predicate DraftShows(draft: Draft, block: Block) {
    forall seqNo: nat, n: nat, ts, person :: AssistantShows(Render(draft, seqNo, n, ts, person, true), block)
  }

  lemma AssistantBlockShows(block: Block)
    ensures |AssistantBlock(block)| == if Visible(block) then 1 else 0
    ensures Visible(block) ==> DraftShows(AssistantBlock(block)[0], block)
  {
  }

  lemma {:induction false} AssistantBlocksShow(blocks: seq<Block>)
    ensures var (drafts, shown) := (AssistantBlocks(blocks), Those(blocks, Visible));
      |drafts| == |shown| && forall k :: 0 <= k < |shown| ==> DraftShows(drafts[k], shown[k])
  {
    hide Visible, DraftShows, AssistantBlock;
    if blocks != [] {
      AssistantBlocksShow(blocks[..|blocks| - 1]);
      AssistantBlockShows(blocks[|blocks| - 1]);
      ThoseLast(blocks, Visible);
    }
  }

  /** The items of an assistant message are its visible blocks, one each and in order. */
  lemma AssistantItemsAre(event: Event)
    requires event.payload.AssistantMessage?
    ensures var (items, shown) := (ItemsOf(event, true), Those(event.payload.blocks, Visible));
      |items| == |shown| && forall k :: 0 <= k < |shown| ==> AssistantShows(items[k], shown[k])
  {
    AssistantBlocksShow(event.payload.blocks);
    hide AssistantBlocks, AssistantShows, Those, Render;
  }

  // ---- Results of tools --------------------------------------------------------------------------------------

  predicate IsText(block: Block) { block.TextBlock? }

  predicate IsPicture(block: Block) { block.ImageBlock? && block.info.Some? }

  /** Texts line by line. */
  function Lines(texts: seq<Text>): Text {
    if texts == [] then [] else if |texts| == 1 then texts[0] else texts[0] + [10] + Lines(texts[1..])
  }

  lemma {:induction false} JoinedAre(texts: seq<Text>, last: Text)
    ensures Lines(texts + [last]) == if texts == [] then last else Lines(texts) + [10] + last
  {
    if |texts| > 1 {
      assert (texts + [last])[1..] == texts[1..] + [last];
      JoinedAre(texts[1..], last);
      assert texts[0] + [10] + (Lines(texts[1..]) + [10] + last) == texts[0] + [10] + Lines(texts[1..]) + [10] + last;
    } else if |texts| == 1 {
      assert (texts + [last])[1..] == [last];
    } else {
      assert texts + [last] == [last];
    }
  }

  lemma {:induction false} JoinLinesAre(texts: seq<Text>)
    ensures JoinLines(texts) == Lines(texts)
  {
    if |texts| > 1 {
      JoinLinesAre(texts[..|texts| - 1]);
      JoinedAre(texts[..|texts| - 1], texts[|texts| - 1]);
      assert texts[..|texts| - 1] + [texts[|texts| - 1]] == texts;
    }
  }

  function TextsOf(blocks: seq<Block>): seq<Text>
    requires forall block <- blocks :: block.TextBlock?
  {
    seq(|blocks|, k requires 0 <= k < |blocks| => blocks[k].text)
  }

  lemma {:induction false} ThosePass(blocks: seq<Block>, pass: Block -> bool)
    ensures forall block <- Those(blocks, pass) :: pass(block)
  {
    if blocks != [] {
      ThosePass(blocks[1..], pass);
    }
  }

  lemma {:induction false} BlockTextsAre(blocks: seq<Block>)
    ensures (forall block <- Those(blocks, IsText) :: block.TextBlock?)
    ensures BlockTexts(blocks) == TextsOf(Those(blocks, IsText))
  {
    ThosePass(blocks, IsText);
    if blocks != [] {
      var init := blocks[..|blocks| - 1];
      BlockTextsAre(init);
      ThoseLast(blocks, IsText);
    }
  }

  lemma {:induction false} ResultPicturesAre(blocks: seq<Block>, callId: Option<string>)
    ensures var (drafts, shown) := (ResultPictures(blocks, callId), Those(blocks, IsPicture));
      && |drafts| == |shown|
      && forall k :: 0 <= k < |shown| ==>
           shown[k].ImageBlock? && shown[k].info.Some? && drafts[k] == Picture(User, shown[k].info.value, callId)
  {
    if blocks != [] {
      ResultPicturesAre(blocks[..|blocks| - 1], callId);
      ThoseLast(blocks, IsPicture);
      ThosePass(blocks, IsPicture);
    }
  }

  /**
   * A tool result is one output item under its call, which says its texts line by line, or why it failed when
   * they say nothing; behind it come its pictures in order.
   */
  lemma ResultItemsAre(event: Event)
    requires event.payload.ToolResult?
    ensures var (items, p) := (ItemsOf(event, true), event.payload);
      var (texts, shown) := (Those(p.blocks, IsText), Those(p.blocks, IsPicture));
      && (forall block <- texts :: block.TextBlock?)
      && |items| == 1 + |shown|
      && items[0].role == User && items[0].kind == ToolResultKind && items[0].toolUseId == p.callId
      && items[0].isError == Some(p.isError)
      && (var text := Lines(TextsOf(texts));
          items[0].text == Some(if p.isError && p.failure.Some? && Blank(text) then p.failure.value else text))
      && forall k :: 0 <= k < |shown| ==>
           shown[k].ImageBlock? && shown[k].info.Some? && Pictures(items[k + 1], User, shown[k].info.value, p.callId)
  {
    var p := event.payload;
    BlockTextsAre(p.blocks);
    JoinLinesAre(BlockTexts(p.blocks));
    ResultPicturesAre(p.blocks, p.callId);
    hide Those, BlockTexts, JoinLines, Lines, Blank, ResultPictures, TextsOf;
  }

  // ---- Messages of the person --------------------------------------------------------------------------------

  /** Where the first text stands, or the length. */
  function FirstText(blocks: seq<Block>): (k: nat)
    ensures k <= |blocks| && (k < |blocks| ==> blocks[k].TextBlock?)
    ensures forall i :: 0 <= i < k ==> !blocks[i].TextBlock?
  {
    if blocks == [] || blocks[0].TextBlock? then 0 else 1 + FirstText(blocks[1..])
  }

  /** The listing a message carries: that of its first text, if it has one. */
  function ListingOf(blocks: seq<Block>): Option<Listing> {
    var k := FirstText(blocks);
    if k < |blocks| then blocks[k].listing else None
  }

  /** The blocks with what the first text says in front of its listing in its place. */
  function Unlisted(blocks: seq<Block>): seq<Block> {
    var k := FirstText(blocks);
    if k < |blocks| && blocks[k].listing.Some? then blocks[k := TextBlock(blocks[k].listing.value.before, None)]
    else blocks
  }

  /** What of a message of the person is shown of itself: texts that are not blank, and pictures. */
  predicate Speaks(block: Block) { (block.TextBlock? || block.ImageBlock?) && Visible(block) }

  ghost predicate PersonShows(draft: Draft, block: Block) {
    match block
    case TextBlock(text, _) => draft == Words(User, TextKind, text)
    case ImageBlock(Some(info)) => draft == Picture(User, info, None)
    case _ => false
  }

  lemma UserBlockShows(block: Block, first: bool)
    ensures var said := if first && block.TextBlock? && block.listing.Some?
        then TextBlock(block.listing.value.before, None) else block;
      && |UserBlock(Person, block, first)| == (if Speaks(said) then 1 else 0)
      && (Speaks(said) ==> PersonShows(UserBlock(Person, block, first)[0], said))
  {
  }

  lemma {:induction false} LaterBlocksShow(blocks: seq<Block>)
    ensures var (parts, shown) := (UserBlocks(Person, blocks, false), Those(blocks, Speaks));
      && parts.listed == [] && |parts.drafts| == |shown|
      && forall k :: 0 <= k < |shown| ==> PersonShows(parts.drafts[k], shown[k])
  {
    hide UserBlock, Speaks, PersonShows;
    if blocks != [] {
      UserBlockShows(blocks[0], false);
      LaterBlocksShow(blocks[1..]);
    }
  }

  lemma {:induction false} PersonBlocksShow(blocks: seq<Block>)
    ensures var (parts, shown) := (UserBlocks(Person, blocks, true), Those(Unlisted(blocks), Speaks));
      && parts.listed == (if ListingOf(blocks).Some? then ListingOf(blocks).value.attachments else [])
      && |parts.drafts| == |shown|
      && forall k :: 0 <= k < |shown| ==> PersonShows(parts.drafts[k], shown[k])
  {
    if blocks != [] {
      UserBlockShows(blocks[0], true);
      var (all, rest) := (Unlisted(blocks), Unlisted(blocks[1..]));
      hide UserBlock, Speaks, PersonShows;
      if blocks[0].TextBlock? {
        LaterBlocksShow(blocks[1..]);
        assert all[1..] == blocks[1..];
      } else {
        PersonBlocksShow(blocks[1..]);
        assert all[0] == blocks[0] && all[1..] == rest;
      }
    }
  }

  lemma {:induction false} AttachmentsListed(blocks: seq<Block>)
    ensures var parts := UserBlocks(Attachments, blocks, true);
      && parts.drafts == []
      && parts.listed == if ListingOf(blocks).Some? then ListingOf(blocks).value.attachments else []
  {
    if blocks != [] && !blocks[0].TextBlock? {
      AttachmentsListed(blocks[1..]);
    }
  }

  /** The listed images, in order. */
  function Images(listed: seq<Attachment>): seq<ImageInfo> {
    if listed == [] then []
    else (if listed[0].ListedImage? then [listed[0].info] else []) + Images(listed[1..])
  }

  /** The names of the other listed files, in order. */
  function Files(listed: seq<Attachment>): seq<Text> {
    if listed == [] then []
    else (if listed[0].ListedFile? then [listed[0].name] else []) + Files(listed[1..])
  }

  lemma {:induction false} MoreImages(a: seq<Attachment>, last: Attachment)
    ensures Images(a + [last]) == Images(a) + if last.ListedImage? then [last.info] else []
  {
    if a == [] {
      assert a + [last] == [last];
    } else {
      MoreImages(a[1..], last);
      var first := if a[0].ListedImage? then [a[0].info] else [];
      var more := if last.ListedImage? then [last.info] else [];
      assert (a + [last])[0] == a[0] && (a + [last])[1..] == a[1..] + [last];
      assert first + (Images(a[1..]) + more) == first + Images(a[1..]) + more;
    }
  }

  lemma {:induction false} MoreFiles(a: seq<Attachment>, last: Attachment)
    ensures Files(a + [last]) == Files(a) + if last.ListedFile? then [last.name] else []
  {
    if a == [] {
      assert a + [last] == [last];
    } else {
      MoreFiles(a[1..], last);
      var first := if a[0].ListedFile? then [a[0].name] else [];
      var more := if last.ListedFile? then [last.name] else [];
      assert (a + [last])[0] == a[0] && (a + [last])[1..] == a[1..] + [last];
      assert first + (Files(a[1..]) + more) == first + Files(a[1..]) + more;
    }
  }

  lemma {:induction false} ListedAre(listed: seq<Attachment>)
    ensures var (drafts, images) := (ListedPictures(listed), Images(listed));
      |drafts| == |images| && forall k :: 0 <= k < |images| ==> drafts[k] == Picture(User, images[k], None)
    ensures var (lines, files) := (ListedFiles(listed), Files(listed));
      |lines| == |files| && forall k :: 0 <= k < |files| ==> lines[k] == [0x9644, 0x4EF6] + [0xFF1A] + files[k]
  {
    if listed != [] {
      var (init, last) := (listed[..|listed| - 1], listed[|listed| - 1]);
      ListedAre(init);
      MoreImages(init, last);
      MoreFiles(init, last);
      assert listed == init + [last];
      hide Images, Files;
    }
  }

  /** The lines that name listed files. */
  function FileLines(files: seq<Text>): seq<Text> {
    seq(|files|, k requires 0 <= k < |files| => [0x9644, 0x4EF6] + [0xFF1A] + files[k])
  }

  ghost predicate PersonItem(item: Item, block: Block) {
    match block
    case TextBlock(text, _) => Says(item, User, TextKind, text)
    case ImageBlock(Some(info)) => Pictures(item, User, info, None)
    case _ => false
  }

  /** The items from the `n`-th on are those of a listing: its images, then one text naming its other files. */
  ghost predicate Lists(items: seq<Item>, n: nat, listed: seq<Attachment>) {
    var (images, files) := (Images(listed), Files(listed));
    && |items| == n + |images| + (if files == [] then 0 else 1)
    && (forall k :: 0 <= k < |images| ==> Pictures(items[n + k], User, images[k], None))
    && (files != [] ==> Says(items[n + |images|], User, TextKind, Lines(FileLines(files))))
  }

  lemma ListingDrafts(listed: seq<Attachment>)
    ensures var (drafts, images, files) := (ListedDrafts(listed), Images(listed), Files(listed));
      && |drafts| == |images| + (if files == [] then 0 else 1)
      && (forall k :: 0 <= k < |images| ==> drafts[k] == Picture(User, images[k], None))
      && (files != [] ==> drafts[|images|] == Words(User, TextKind, Lines(FileLines(files))))
  {
    hide ListedPictures, ListedFiles, JoinLines, Lines, Images, Files;
    ListedAre(listed);
    JoinLinesAre(ListedFiles(listed));
    assert ListedFiles(listed) == FileLines(Files(listed));
  }

  lemma ListingRenders(drafts: seq<Draft>, listed: seq<Attachment>, seqNo: nat, ts: int, person: bool)
    ensures Lists(RenderAll(drafts + ListedDrafts(listed), seqNo, ts, person, true), |drafts|, listed)
  {
    hide ListedDrafts, Lines, FileLines, Images, Files;
    ListingDrafts(listed);
    var all := drafts + ListedDrafts(listed);
    assert forall k :: 0 <= k < |ListedDrafts(listed)| ==> all[|drafts| + k] == ListedDrafts(listed)[k];
  }

  lemma NothingRenders(seqNo: nat, ts: int, person: bool)
    ensures RenderAll([], seqNo, ts, person, true) == []
  {
  }

  lemma PersonRenders(drafts: seq<Draft>, more: seq<Draft>, shown: seq<Block>, seqNo: nat, ts: int, person: bool)
    requires |drafts| == |shown| && forall k :: 0 <= k < |shown| ==> PersonShows(drafts[k], shown[k])
    ensures |RenderAll(drafts + more, seqNo, ts, person, true)| >= |shown|
    ensures forall k :: 0 <= k < |shown| ==>
      PersonItem(RenderAll(drafts + more, seqNo, ts, person, true)[k], shown[k])
  {
    var items := RenderAll(drafts + more, seqNo, ts, person, true);
    forall k | 0 <= k < |shown| ensures PersonItem(items[k], shown[k]) {
      assert (drafts + more)[k] == drafts[k] && PersonShows(drafts[k], shown[k]);
    }
  }

  /**
   * A message of the person shows its texts and pictures in order, the first text without the listing it
   * carries; then come the listed images, and one text naming the other listed files. A message that only
   * carries attachments shows those alone, a hidden one nothing.
   */
  lemma UserItemsAre(event: Event)
    requires event.payload.UserMessage?
    ensures var (items, p) := (ItemsOf(event, true), event.payload);
      var listed := if ListingOf(p.blocks).Some? then ListingOf(p.blocks).value.attachments else [];
      var shown := if p.shown == Person then Those(Unlisted(p.blocks), Speaks) else [];
      if p.shown == Hidden then items == []
      else
        && Lists(items, |shown|, listed)
        && forall k :: 0 <= k < |shown| ==> PersonItem(items[k], shown[k])
  {
    hide UserBlocks, ListedDrafts, Lists, Those, Unlisted, ListingOf, PersonItem, PersonShows, RenderAll;
    var p := event.payload;
    PersonBlocksShow(p.blocks);
    AttachmentsListed(p.blocks);
    if p.shown != Hidden {
      var parts := UserBlocks(p.shown, p.blocks, true);
      var shown := if p.shown == Person then Those(Unlisted(p.blocks), Speaks) else [];
      ListingRenders(parts.drafts, parts.listed, event.seqNo + 1, event.time, true);
      PersonRenders(parts.drafts, ListedDrafts(parts.listed), shown, event.seqNo + 1, event.time, true);
    } else {
      NothingRenders(event.seqNo + 1, event.time, false);
    }
  }

  // ---- Notices -----------------------------------------------------------------------------------------------

  /** The end of a turn is noticed unless it completed, a compaction unless it failed; other events show nothing. */
  lemma NoticesAre(event: Event)
    requires event.payload.TurnEnd? || event.payload.CompactionEnd? || event.payload.OtherEvent?
    ensures var items := ItemsOf(event, true);
      match event.payload
      case TurnEnd(Interrupted) => |items| == 1 && Says(items[0], System, Notice, [0x5DF2, 0x4E2D, 0x65AD])
      case TurnEnd(MaxTokens) =>
        |items| == 1 && Says(items[0], System, Notice, [0x5DF2, 0x8FBE, 0x5230, 0x8F93, 0x51FA, 0x4E0A, 0x9650])
      case TurnEnd(Failed(Some(code), message)) =>
        && |items| == 1
        && Says(items[0], System, Notice, [0x51FA, 0x9519] + [0xFF08] + code + [0xFF09] + [0xFF1A] + message)
      case TurnEnd(Failed(None, message)) =>
        |items| == 1 && Says(items[0], System, Notice, [0x51FA, 0x9519] + [0xFF1A] + message)
      case TurnEnd(Completed) => items == []
      case CompactionEnd(failed) =>
        if failed then items == []
        else |items| == 1 && Says(items[0], System, Notice, [0x4E0A, 0x4E0B, 0x6587, 0x5DF2, 0x538B, 0x7F29])
      case _ => items == []
  {
  }
}
