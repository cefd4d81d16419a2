/** How session events are shown as items: truncation, item building, ids, light and full items. */
module Mapper {
  import opened Options
  import opened Utf8
  import Decimal

  // ---- Data ----------------------------------------------------------------------------------

  datatype Role = User | Assistant | System
  datatype Kind = TextKind | Thinking | ToolUseKind | ToolResultKind | ImageKind | Notice

  /** A JSON value; numbers, booleans and null are not looked into. */
  datatype Json = JString(text: Text) | JArray(elems: seq<Json>) | JObject(fields: seq<Field>) | JOther(raw: int)
  datatype Field = Field(key: Text, value: Json)

  datatype ImageInfo = ImageInfo(mime: string, size: Option<nat>, name: Option<string>, ref: Option<string>)

  /** A workspace attachment listed in a message: an image, or another file with its display name. */
  datatype Attachment = ListedImage(info: ImageInfo) | ListedFile(name: Text)
  datatype Listing = Listing(before: Text, attachments: seq<Attachment>)

  /** A content block; `listing` is the attachment listing found in a text, if any. */
  datatype Block =
    | TextBlock(text: Text, listing: Option<Listing>)
    | ReasoningBlock(text: Text)
    | ToolCallBlock(name: string, input: Json, inputSize: nat, callId: Option<string>)
    | ImageBlock(info: Option<ImageInfo>)
    | OtherBlock

  datatype Shown = Person | Attachments | Hidden

  datatype EndReason = Interrupted | MaxTokens | Failed(code: Option<Text>, message: Text) | Completed

  datatype Payload =
    | UserMessage(shown: Shown, blocks: seq<Block>)
    | AssistantMessage(blocks: seq<Block>)
    | ToolResult(callId: Option<string>, isError: bool, failure: Option<Text>, blocks: seq<Block>)
    | TurnEnd(reason: EndReason)
    | CompactionEnd(failed: bool)
    | OtherEvent

  /** A persisted session event; seqs count from 0. */
  datatype Event = Event(seqNo: nat, time: int, payload: Payload)

  datatype Item = Item(
    id: string,
    seqNo: nat,
    ts: int,
    role: Role,
    kind: Kind,
    text: Option<Text>,
    fullSize: Option<nat>,
    toolName: Option<string>,
    toolInput: Option<Json>,
    toolUseId: Option<string>,
    isError: Option<bool>,
    image: Option<ImageInfo>,
    person: bool)

  // ---- Truncation ----------------------------------------------------------------------------

  const TEXT_LIMIT_BYTES: nat := 24 * 1024
  const TOOL_OUTPUT_LIMIT_BYTES: nat := 4 * 1024

  const NEWLINE: Text := [10]
  const NOTE_OPEN: Text := [0x2026, 0xFF08, 0x5DF2, 0x622A, 0x65AD, 0xFF0C]
  const NOTE_CLICK: Text := [0x70B9, 0x5F00, 0x770B, 0x5168, 0x6587, 0xFF0C]
  const NOTE_TOTAL: Text := [0x5171, 0x20]
  const NOTE_CLOSE: Text := [0x20, 0x5B57, 0x8282, 0xFF09]

  function NumberText(n: nat): Text {
    var digits := Decimal.Print(n);
    seq(|digits|, i requires 0 <= i < |digits| => '0' as int + Decimal.ValueOf(digits[i]))
  }

  function TruncationNote(fullSize: nat, toolOutput: bool): Text {
    NOTE_OPEN + (if toolOutput then NOTE_CLICK else []) + NOTE_TOTAL + NumberText(fullSize) + NOTE_CLOSE
  }

  datatype Truncated = Truncated(text: Text, fullSize: Option<nat>)

  function TruncateText(text: Text, limit: nat, toolOutput: bool): Truncated {
    if |text| * 3 <= limit then Truncated(text, None)
    else
      var size := Utf8Length(text);
      if size <= limit then Truncated(text, None)
      else Truncated(Kept(text, limit) + NEWLINE + TruncationNote(size, toolOutput), Some(size))
  }

  /** The text has been cut to its first `k` characters, the most that fit in `limit` bytes. */
  ghost predicate CutAt(text: Text, limit: nat, k: nat) {
    var cs := Chars(text);
    && k < |cs|
    && |Encode(cs[..k])| <= limit
    && limit - |Encode(cs[..k])| <= 3
    && (forall j :: k < j <= |cs| ==> |Encode(cs[..j])| > limit)
  }

  /**
   * What truncation promises: a text within the budget is shown whole, whatever its length in
   * UTF-16 units; a longer one keeps its longest whole-character prefix within the budget,
   * wasting at most three bytes, and says how long it was.
   */
  lemma TruncationIsLongestPrefix(text: Text, limit: nat, toolOutput: bool)
    ensures var t := TruncateText(text, limit, toolOutput);
      && (Utf8Length(text) <= limit ==> t == Truncated(text, None))
      && (Utf8Length(text) > limit ==>
          && t.fullSize == Some(Utf8Length(text))
          && exists k: nat ::
            && CutAt(text, limit, k)
            && t.text == Units(Chars(text)[..k]) + NEWLINE + TruncationNote(Utf8Length(text), toolOutput))
  {
    UnitsBoundBytes(text);
    if Utf8Length(text) > limit {
      var cs := Chars(text);
      var k := Fit(cs, limit);
      FitIsLongest(cs, limit);
      assert cs[..|cs|] == cs;
      assert CutAt(text, limit, k);
    }
  }

  /** Whether truncating every string of a value for display would cut one. */
  predicate HasLongString(v: Json) {
    match v
    case JString(t) => Utf8Length(t) > TEXT_LIMIT_BYTES
    case JArray(elems) => exists i :: 0 <= i < |elems| && HasLongString(elems[i])
    case JObject(fields) => exists i :: 0 <= i < |fields| && HasLongString(fields[i].value)
    case JOther(_) => false
  }

  /** A value with every long string cut. */
  function LightValue(v: Json): Json {
    match v
    case JString(t) => JString(TruncateText(t, TEXT_LIMIT_BYTES, false).text)
    case JArray(elems) => JArray(seq(|elems|, i requires 0 <= i < |elems| => LightValue(elems[i])))
    case JObject(fields) =>
      JObject(seq(|fields|, i requires 0 <= i < |fields| => Field(fields[i].key, LightValue(fields[i].value))))
    case JOther(_) => v
  }

  /** Values without a long string, at any depth, are left exactly as they are. */
  lemma {:induction false} LightValueKeepsShort(v: Json)
    requires !HasLongString(v)
    ensures LightValue(v) == v
  {
    match v
    case JString(t) => TruncationIsLongestPrefix(t, TEXT_LIMIT_BYTES, false);
    case JArray(elems) =>
      forall i | 0 <= i < |elems| ensures LightValue(elems[i]) == elems[i] {
        LightValueKeepsShort(elems[i]);
      }
      assert LightValue(v).elems == elems;
    case JObject(fields) =>
      forall i | 0 <= i < |fields| ensures LightValue(fields[i].value) == fields[i].value {
        LightValueKeepsShort(fields[i].value);
      }
      assert LightValue(v).fields == fields;
    case JOther(_) =>
  }

  /** The mutable "something was cut" mark the traversal carries along. */
  class CutMark {
    var cut: bool

    constructor ()
      ensures !cut
    {
      cut := false;
    }
  }

  method LightenValue(value: Json, mark: CutMark) returns (light: Json)
    modifies mark
    ensures light == LightValue(value)
    ensures mark.cut == (old(mark.cut) || HasLongString(value))
    decreases value
  {
    match value
    case JString(t) =>
      TruncationIsLongestPrefix(t, TEXT_LIMIT_BYTES, false);
      var short := TruncateText(t, TEXT_LIMIT_BYTES, false);
      if short.fullSize.Some? {
        mark.cut := true;
      }
      light := JString(short.text);
    case JArray(elems) =>
      var out: seq<Json> := [];
      for i := 0 to |elems|
        invariant |out| == i
        invariant forall k :: 0 <= k < i ==> out[k] == LightValue(elems[k])
        invariant mark.cut == (old(mark.cut) || exists k :: 0 <= k < i && HasLongString(elems[k]))
      {
        var v := LightenValue(elems[i], mark);
        out := out + [v];
      }
      assert out == LightValue(value).elems;
      light := JArray(out);
    case JObject(fields) =>
      var out: seq<Field> := [];
      for i := 0 to |fields|
        invariant |out| == i
        invariant forall k :: 0 <= k < i ==> out[k] == Field(fields[k].key, LightValue(fields[k].value))
        invariant mark.cut == (old(mark.cut) || exists k :: 0 <= k < i && HasLongString(fields[k].value))
      {
        var v := LightenValue(fields[i].value, mark);
        out := out + [Field(fields[i].key, v)];
      }
      assert out == LightValue(value).fields;
      light := JObject(out);
    case JOther(_) =>
      light := value;
  }

  function LightToolInput(input: Json, inputSize: nat): (Json, Option<nat>) {
    if HasLongString(input) then (LightValue(input), Some(inputSize)) else (input, None)
  }

  method LightenToolInput(input: Json, inputSize: nat) returns (light: Json, fullSize: Option<nat>)
    ensures (light, fullSize) == LightToolInput(input, inputSize)
  {
    var mark := new CutMark();
    light := LightenValue(input, mark);
    if !mark.cut {
      light, fullSize := input, None;
    } else {
      fullSize := Some(inputSize);
    }
  }

  // ---- What an event shows --------------------------------------------------------------------

  /** One thing to show, before ids and truncation. */
  datatype Draft =
    | Words(role: Role, kind: Kind, text: Text)
    | Use(name: string, input: Json, inputSize: nat, callId: Option<string>)
    | Output(callId: Option<string>, isError: bool, text: Text)
    | Picture(role: Role, info: ImageInfo, callId: Option<string>)

  const INTERRUPTED_NOTICE: Text := [0x5DF2, 0x4E2D, 0x65AD]
  const MAX_TOKENS_NOTICE: Text := [0x5DF2, 0x8FBE, 0x5230, 0x8F93, 0x51FA, 0x4E0A, 0x9650]
  const COMPACTED_NOTICE: Text := [0x4E0A, 0x4E0B, 0x6587, 0x5DF2, 0x538B, 0x7F29]
  const ERROR_NOTICE_PREFIX: Text := [0x51FA, 0x9519]
  const ATTACHMENT_LINE_LABEL: Text := [0x9644, 0x4EF6]
  const COLON: Text := [0xFF1A]

  predicate Blank(t: Text) { forall i :: 0 <= i < |t| ==> IsSpace(t[i]) }

  const TOOL_NAMES: map<string, string> := map[
    "bash" := "Bash", "read" := "Read", "edit" := "Edit", "write" := "Write", "grep" := "Grep", "glob" := "Glob",
    "web_fetch" := "WebFetch", "web_search" := "WebSearch", "todo_write" := "TodoWrite",
    "ask_user_question" := "AskUserQuestion", "read_image" := "Read"]

  function MapToolName(name: string): string { if name in TOOL_NAMES then TOOL_NAMES[name] else name }

  function JoinLines(lines: seq<Text>): Text {
    if lines == [] then []
    else if |lines| == 1 then lines[0]
    else JoinLines(lines[..|lines| - 1]) + NEWLINE + lines[|lines| - 1]
  }

  function ListedPicture(listed: Attachment): seq<Draft> {
    match listed
    case ListedImage(info) => [Picture(User, info, None)]
    case ListedFile(_) => []
  }

  function ListedLine(listed: Attachment): seq<Text> {
    match listed
    case ListedImage(_) => []
    case ListedFile(name) => [ATTACHMENT_LINE_LABEL + COLON + name]
  }

  function ListedPictures(listed: seq<Attachment>): seq<Draft> {
    if listed == [] then []
    else ListedPictures(listed[..|listed| - 1]) + ListedPicture(listed[|listed| - 1])
  }

  function ListedFiles(listed: seq<Attachment>): seq<Text> {
    if listed == [] then []
    else ListedFiles(listed[..|listed| - 1]) + ListedLine(listed[|listed| - 1])
  }

  /** Listed attachments: the images in order, then one line of text naming the other files. */
  function ListedDrafts(listed: seq<Attachment>): seq<Draft> {
    var files := ListedFiles(listed);
    ListedPictures(listed) + (if files == [] then [] else [Words(User, TextKind, JoinLines(files))])
  }

  /** A text block of a user message: what is left of it, and the attachments it listed. Only the first can list. */
  function SplitText(block: Block, first: bool): (Text, seq<Attachment>)
    requires block.TextBlock?
  {
    if first && block.listing.Some? then (block.listing.value.before, block.listing.value.attachments)
    else (block.text, [])
  }

  datatype UserParts = UserParts(drafts: seq<Draft>, listed: seq<Attachment>)

  function UserBlock(shown: Shown, block: Block, first: bool): seq<Draft> {
    match block
    case TextBlock(_, _) =>
      var body := SplitText(block, first).0;
      if shown == Person && !Blank(body) then [Words(User, TextKind, body)] else []
    case ImageBlock(Some(info)) => if shown == Person then [Picture(User, info, None)] else []
    case _ => []
  }

  function UserBlockListed(block: Block, first: bool): seq<Attachment> {
    if block.TextBlock? then SplitText(block, first).1 else []
  }

  /** The blocks of a user message from one on; attachment guidance ends at its first text. */
  function UserBlocks(shown: Shown, blocks: seq<Block>, first: bool): UserParts {
    if blocks == [] then UserParts([], [])
    else
      var here := UserParts(UserBlock(shown, blocks[0], first), UserBlockListed(blocks[0], first));
      if shown == Attachments && blocks[0].TextBlock? then here
      else
        var rest := UserBlocks(shown, blocks[1..], first && !blocks[0].TextBlock?);
        UserParts(here.drafts + rest.drafts, here.listed + rest.listed)
  }

  /** What a loop over the blocks has gathered, together with what `rest` still adds, is `whole`. */
  ghost predicate Gathered(whole: UserParts, sofar: UserParts, shown: Shown, rest: seq<Block>, first: bool) {
    var more := UserBlocks(shown, rest, first);
    whole == UserParts(sofar.drafts + more.drafts, sofar.listed + more.listed)
  }

  lemma GatherOne(whole: UserParts, sofar: UserParts, shown: Shown, rest: seq<Block>, first: bool)
    requires rest != [] && Gathered(whole, sofar, shown, rest, first)
    ensures
      var next := UserParts(sofar.drafts + UserBlock(shown, rest[0], first),
                            sofar.listed + UserBlockListed(rest[0], first));
      if shown == Attachments && rest[0].TextBlock? then whole == next
      else Gathered(whole, next, shown, rest[1..], first && !rest[0].TextBlock?)
  {
    hide UserBlock, UserBlockListed;
    var here, listed := UserBlock(shown, rest[0], first), UserBlockListed(rest[0], first);
    var more := UserBlocks(shown, rest[1..], first && !rest[0].TextBlock?);
    assert sofar.drafts + (here + more.drafts) == sofar.drafts + here + more.drafts;
    assert sofar.listed + (listed + more.listed) == sofar.listed + listed + more.listed;
  }

  function AssistantBlock(block: Block): seq<Draft> {
    match block
    case ReasoningBlock(text) => if Blank(text) then [] else [Words(Assistant, Thinking, text)]
    case TextBlock(text, _) => if Blank(text) then [] else [Words(Assistant, TextKind, text)]
    case ToolCallBlock(name, input, size, callId) => [Use(name, input, size, callId)]
    case ImageBlock(Some(info)) => [Picture(Assistant, info, None)]
    case _ => []
  }

  function AssistantBlocks(blocks: seq<Block>): seq<Draft> {
    if blocks == [] then [] else AssistantBlocks(blocks[..|blocks| - 1]) + AssistantBlock(blocks[|blocks| - 1])
  }

  function BlockTexts(blocks: seq<Block>): seq<Text> {
    if blocks == [] then []
    else
      var last := blocks[|blocks| - 1];
      BlockTexts(blocks[..|blocks| - 1]) + (if last.TextBlock? then [last.text] else [])
  }

  function ResultPicture(block: Block, callId: Option<string>): seq<Draft> {
    match block
    case ImageBlock(Some(info)) => [Picture(User, info, callId)]
    case _ => []
  }

  function ResultPictures(blocks: seq<Block>, callId: Option<string>): seq<Draft> {
    if blocks == [] then []
    else ResultPictures(blocks[..|blocks| - 1], callId) + ResultPicture(blocks[|blocks| - 1], callId)
  }

  function ResultText(isError: bool, failure: Option<Text>, blocks: seq<Block>): Text {
    var text := JoinLines(BlockTexts(blocks));
    if isError && Blank(text) && failure.Some? then failure.value else text
  }

  const CODE_OPEN: Text := [0xFF08]
  const CODE_CLOSE: Text := [0xFF09]

  function EndNotice(reason: EndReason): seq<Draft> {
    match reason
    case Interrupted => [Words(System, Notice, INTERRUPTED_NOTICE)]
    case MaxTokens => [Words(System, Notice, MAX_TOKENS_NOTICE)]
    case Failed(Some(code), message) =>
      [Words(System, Notice, ERROR_NOTICE_PREFIX + CODE_OPEN + code + CODE_CLOSE + COLON + message)]
    case Failed(None, message) => [Words(System, Notice, ERROR_NOTICE_PREFIX + COLON + message)]
    case Completed => []
  }

  /** Everything an event shows, in order. */
  function Drafts(event: Event): seq<Draft> {
    match event.payload
    case UserMessage(shown, blocks) =>
      if shown == Hidden then []
      else
        var parts := UserBlocks(shown, blocks, true);
        parts.drafts + ListedDrafts(parts.listed)
    case AssistantMessage(blocks) => AssistantBlocks(blocks)
    case ToolResult(callId, isError, failure, blocks) =>
      [Output(callId, isError, ResultText(isError, failure, blocks))] + ResultPictures(blocks, callId)
    case TurnEnd(reason) => EndNotice(reason)
    case CompactionEnd(failed) => if failed then [] else [Words(System, Notice, COMPACTED_NOTICE)]
    case OtherEvent => []
  }

  /** Events whose items carry the person mark. */
  predicate FromPerson(event: Event) { event.payload.UserMessage? && event.payload.shown != Hidden }

  // ---- Items ----------------------------------------------------------------------------------

  /** `<seq>#<n>`. */
  function ItemId(seqNo: nat, n: nat): string { Decimal.Print(seqNo) + "#" + Decimal.Print(n) }

  function ShownText(text: Text, toolOutput: bool, full: bool): Truncated {
    if full then Truncated(text, None)
    else TruncateText(text, if toolOutput then TOOL_OUTPUT_LIMIT_BYTES else TEXT_LIMIT_BYTES, toolOutput)
  }

  /** The `n`-th item of an event: a draft with its id, truncated unless `full`. */
  function Render(draft: Draft, seqNo: nat, n: nat, ts: int, person: bool, full: bool): Item {
    var id := ItemId(seqNo, n);
    match draft
    case Words(role, kind, text) =>
      var t := ShownText(text, false, full);
      Item(id, seqNo, ts, role, kind, Some(t.text), t.fullSize, None, None, None, None, None, person)
    case Use(name, input, size, callId) =>
      var (light, fullSize) := if full then (input, None) else LightToolInput(input, size);
      Item(id, seqNo, ts, Assistant, ToolUseKind, None, fullSize, Some(MapToolName(name)), Some(light), callId, None,
        None, person)
    case Output(callId, isError, text) =>
      var t := ShownText(text, true, full);
      Item(id, seqNo, ts, User, ToolResultKind, Some(t.text), t.fullSize, None, None, callId, Some(isError), None,
        person)
    case Picture(role, info, callId) =>
      Item(id, seqNo, ts, role, ImageKind, None, None, None, None, callId, None, Some(info), person)
  }

  function RenderAll(drafts: seq<Draft>, seqNo: nat, ts: int, person: bool, full: bool): seq<Item> {
    seq(|drafts|, n requires 0 <= n < |drafts| => Render(drafts[n], seqNo, n, ts, person, full))
  }

  function ItemsOf(event: Event, full: bool): seq<Item> {
    RenderAll(Drafts(event), event.seqNo + 1, event.time, FromPerson(event), full)
  }

  /** The light items of an event. */
  function MapEvent(event: Event): seq<Item> { ItemsOf(event, false) }

  function MapEvents(events: seq<Event>): seq<Item> {
    if events == [] then [] else MapEvents(events[..|events| - 1]) + MapEvent(events[|events| - 1])
  }

  class ItemBuilder {
    const seqNo: nat
    const ts: int
    const full: bool
    var items: seq<Item>
    var person: bool

    constructor (seqNo: nat, ts: int, full: bool)
      ensures this.seqNo == seqNo && this.ts == ts && this.full == full
      ensures items == [] && !person
    {
      this.seqNo, this.ts, this.full := seqNo, ts, full;
      items, person := [], false;
    }

    /** The builder holds the items of `drafts`. */
    ghost predicate Holds(drafts: seq<Draft>)
      reads this
    {
      items == RenderAll(drafts, seqNo, ts, person, full)
    }

    method Append(item: Item, ghost drafts: seq<Draft>, ghost draft: Draft)
      requires Holds(drafts)
      requires item == Render(draft, seqNo, |items|, ts, person, full)
      modifies this`items
      ensures Holds(drafts + [draft])
    {
      items := items + [item];
      assert items == RenderAll(drafts + [draft], seqNo, ts, person, full);
    }

    method Base(role: Role, kind: Kind) returns (item: Item)
      ensures item == Item(ItemId(seqNo, |items|), seqNo, ts, role, kind, None, None, None, None, None, None, None,
        person)
    {
      item := Item(ItemId(seqNo, |items|), seqNo, ts, role, kind, None, None, None, None, None, None, None, person);
    }

    method AddText(role: Role, kind: Kind, text: Text, ghost drafts: seq<Draft>)
      requires Holds(drafts)
      modifies this`items
      ensures Holds(drafts + [Words(role, kind, text)])
    {
      var item := Base(role, kind);
      var t := ShownText(text, false, full);
      Append(item.(text := Some(t.text), fullSize := t.fullSize), drafts, Words(role, kind, text));
    }

    method AddToolUse(name: string, input: Json, inputSize: nat, callId: Option<string>, ghost drafts: seq<Draft>)
      requires Holds(drafts)
      modifies this`items
      ensures Holds(drafts + [Use(name, input, inputSize, callId)])
    {
      var item := Base(Assistant, ToolUseKind);
      item := item.(toolName := Some(MapToolName(name)), toolUseId := callId);
      if full {
        item := item.(toolInput := Some(input));
      } else {
        var light, fullSize := LightenToolInput(input, inputSize);
        item := item.(toolInput := Some(light), fullSize := fullSize);
      }
      Append(item, drafts, Use(name, input, inputSize, callId));
    }

    method AddToolResult(callId: Option<string>, isError: bool, text: Text, ghost drafts: seq<Draft>)
      requires Holds(drafts)
      modifies this`items
      ensures Holds(drafts + [Output(callId, isError, text)])
    {
      var item := Base(User, ToolResultKind);
      var t := ShownText(text, true, full);
      Append(item.(toolUseId := callId, isError := Some(isError), text := Some(t.text), fullSize := t.fullSize),
             drafts, Output(callId, isError, text));
    }

    method AddImage(role: Role, info: ImageInfo, callId: Option<string>, ghost drafts: seq<Draft>)
      requires Holds(drafts)
      modifies this`items
      ensures Holds(drafts + [Picture(role, info, callId)])
    {
      var item := Base(role, ImageKind);
      Append(item.(image := Some(info), toolUseId := callId), drafts, Picture(role, info, callId));
    }

    method AddListed(listed: seq<Attachment>, ghost drafts: seq<Draft>)
      requires Holds(drafts)
      modifies this`items
      ensures Holds(drafts + ListedDrafts(listed))
    {
      var files: seq<Text> := [];
      assert drafts + ListedPictures([]) == drafts;
      for i := 0 to |listed|
        invariant Holds(drafts + ListedPictures(listed[..i]))
        invariant files == ListedFiles(listed[..i])
      {
        assert listed[..i + 1][..i] == listed[..i];
        ghost var sofar := drafts + ListedPictures(listed[..i]);
        match listed[i]
        case ListedImage(info) =>
          AddImage(User, info, None, sofar);
          assert sofar + [Picture(User, info, None)] == drafts + ListedPictures(listed[..i + 1]);
        case ListedFile(name) =>
          files := files + [ATTACHMENT_LINE_LABEL + COLON + name];
          assert sofar == drafts + ListedPictures(listed[..i + 1]);
      }
      assert listed[..|listed|] == listed;
      ghost var pictures := drafts + ListedPictures(listed);
      if |files| > 0 {
        AddText(User, TextKind, JoinLines(files), pictures);
        assert pictures + [Words(User, TextKind, JoinLines(files))] == drafts + ListedDrafts(listed);
      } else {
        assert pictures == drafts + ListedDrafts(listed);
      }
    }

    method AddUserBlock(shown: Shown, block: Block, first: bool, ghost drafts: seq<Draft>)
      returns (listed: seq<Attachment>)
      requires Holds(drafts)
      modifies this`items
      ensures Holds(drafts + UserBlock(shown, block, first)) && listed == UserBlockListed(block, first)
    {
      listed := [];
      assert drafts + [] == drafts;
      match block
      case TextBlock(_, _) =>
        var (body, here) := SplitText(block, first);
        listed := here;
        if shown == Person && !Blank(body) {
          AddText(User, TextKind, body, drafts);
        }
      case ImageBlock(Some(info)) =>
        if shown == Person {
          AddImage(User, info, None, drafts);
        }
      case _ =>
    }

    method AddUserMessage(shown: Shown, blocks: seq<Block>)
      requires Holds([])
      modifies this`items
      ensures var parts := UserBlocks(shown, blocks, true); Holds(parts.drafts + ListedDrafts(parts.listed))
    {
      var listed: seq<Attachment> := [];
      var first := true;
      ghost var drafts: seq<Draft> := [];
      ghost var whole := UserBlocks(shown, blocks, true);
      for i := 0 to |blocks|
        invariant Holds(drafts)
        invariant Gathered(whole, UserParts(drafts, listed), shown, blocks[i..], first)
      {
        GatherOne(whole, UserParts(drafts, listed), shown, blocks[i..], first);
        assert blocks[i..][1..] == blocks[i + 1..];
        var here := AddUserBlock(shown, blocks[i], first, drafts);
        drafts, listed := drafts + UserBlock(shown, blocks[i], first), listed + here;
        first := first && !blocks[i].TextBlock?;
        if shown == Attachments && blocks[i].TextBlock? {
          break;
        }
      }
      assert whole == UserParts(drafts, listed);
      AddListed(listed, drafts);
    }

    method AddAssistantMessage(blocks: seq<Block>)
      requires Holds([])
      modifies this`items
      ensures Holds(AssistantBlocks(blocks))
    {
      for i := 0 to |blocks|
        invariant Holds(AssistantBlocks(blocks[..i]))
      {
        assert blocks[..i + 1][..i] == blocks[..i];
        ghost var sofar := AssistantBlocks(blocks[..i]);
        assert sofar + [] == sofar;
        match blocks[i] {
          case ReasoningBlock(text) => if !Blank(text) { AddText(Assistant, Thinking, text, sofar); }
          case TextBlock(text, _) => if !Blank(text) { AddText(Assistant, TextKind, text, sofar); }
          case ToolCallBlock(name, input, size, callId) => AddToolUse(name, input, size, callId, sofar);
          case ImageBlock(Some(info)) => AddImage(Assistant, info, None, sofar);
          case _ =>
        }
      }
      assert blocks[..|blocks|] == blocks;
    }

    method AddToolOutput(callId: Option<string>, isError: bool, failure: Option<Text>, blocks: seq<Block>)
      requires Holds([])
      modifies this`items
      ensures Holds([Output(callId, isError, ResultText(isError, failure, blocks))] + ResultPictures(blocks, callId))
    {
      hide ResultText, Render;
      var text := ResultText(isError, failure, blocks);
      AddToolResult(callId, isError, text, []);
      ghost var head := [Output(callId, isError, text)];
      assert [] + head == head + ResultPictures([], callId);
      for i := 0 to |blocks|
        invariant Holds(head + ResultPictures(blocks[..i], callId))
      {
        assert blocks[..i + 1][..i] == blocks[..i];
        ghost var sofar := head + ResultPictures(blocks[..i], callId);
        match blocks[i]
        case ImageBlock(Some(info)) =>
          AddImage(User, info, callId, sofar);
          assert sofar + [Picture(User, info, callId)] == head + ResultPictures(blocks[..i + 1], callId);
        case _ =>
          assert sofar == head + ResultPictures(blocks[..i + 1], callId);
      }
      assert blocks[..|blocks|] == blocks;
    }
  }

  /** Build the items of one event. */
  method Build(event: Event, full: bool) returns (items: seq<Item>)
    ensures items == ItemsOf(event, full)
  {
    hide UserBlocks, AssistantBlocks, ListedDrafts, ResultPictures, ResultText, Render, IsSpace, Blank;
    var b := new ItemBuilder(event.seqNo + 1, event.time, full);
    assert b.Holds([]);
    match event.payload {
    case UserMessage(shown, blocks) =>
      if shown != Hidden {
        b.person := true;
        b.AddUserMessage(shown, blocks);
      }
    case AssistantMessage(blocks) => b.AddAssistantMessage(blocks);
    case ToolResult(callId, isError, failure, blocks) => b.AddToolOutput(callId, isError, failure, blocks);
    case TurnEnd(reason) =>
      match reason {
        case Interrupted => b.AddText(System, Notice, INTERRUPTED_NOTICE, []);
        case MaxTokens => b.AddText(System, Notice, MAX_TOKENS_NOTICE, []);
        case Failed(Some(code), message) =>
          b.AddText(System, Notice, ERROR_NOTICE_PREFIX + CODE_OPEN + code + CODE_CLOSE + COLON + message, []);
        case Failed(None, message) => b.AddText(System, Notice, ERROR_NOTICE_PREFIX + COLON + message, []);
        case Completed =>
      }
      assert b.Holds(EndNotice(reason));
    case CompactionEnd(failed) => if !failed { b.AddText(System, Notice, COMPACTED_NOTICE, []); }
    case OtherEvent =>
    }
    items := b.items;
    assert b.Holds(Drafts(event));
  }

  // ---- Ids and lookups -------------------------------------------------------------------------

  const MAX_SAFE_INTEGER: nat := 0x1F_FFFF_FFFF_FFFF

  /** Position of the first `#`, or the length. */
  function HashAt(id: string): (k: nat)
    ensures k <= |id|
    ensures forall i :: 0 <= i < k ==> id[i] != '#'
    ensures k < |id| ==> id[k] == '#'
  {
    if id == "" || id[0] == '#' then 0 else 1 + HashAt(id[1..])
  }

  /** What stands before the `#` of an id made of two digit strings, if it is a positive safe integer. */
  function ItemSeqOf(id: string): Option<nat> {
    var k := HashAt(id);
    if 0 < k && k + 1 < |id| && Decimal.AllDigits(id[..k]) && Decimal.AllDigits(id[k + 1..]) then
      var v := Decimal.Value(id[..k]);
      if 0 < v <= MAX_SAFE_INTEGER then Some(v) else None
    else None
  }

  function FindItem(items: seq<Item>, id: string): Option<Item> {
    if items == [] then None else if items[0].id == id then Some(items[0]) else FindItem(items[1..], id)
  }

  /** Looking up an id among the full items of an event. */
  function FullItem(event: Event, id: string): Option<Item> {
    if ItemSeqOf(id) != Some(event.seqNo + 1) then None else FindItem(ItemsOf(event, true), id)
  }

  /** A person's item with no person's item right in front of it. */
  predicate IsTurnStart(item: Item, previous: Option<Item>) {
    item.person && !(previous.Some? && previous.value.person)
  }
}
