/** Fenced code blocks of markdown text, and splitting long text into chunks that close and reopen them. */
module MarkdownFences {
  import opened Options
  import opened Utf8

  const NL: CodeUnit := 10
  const TICK: CodeUnit := 96
  const TICKS: Text := [96, 96, 96]

  predicate IsWord(c: CodeUnit) { 48 <= c <= 57 || 65 <= c <= 90 || c == 95 || 97 <= c <= 122 }

  /** Where the word run at `i` ends. */
  function WordEnd(text: Text, i: nat): (j: nat)
    requires i <= |text|
    ensures i <= j <= |text| && (forall k :: i <= k < j ==> IsWord(text[k])) && (j < |text| ==> !IsWord(text[j]))
    decreases |text| - i
  {
    if i < |text| && IsWord(text[i]) then WordEnd(text, i + 1) else i
  }

  /** Where the white space at `i` ends. */
  function SpaceEnd(text: Text, i: nat): (j: nat)
    requires i <= |text|
    ensures i <= j <= |text| && (forall k :: i <= k < j ==> IsSpace(text[k])) && (j < |text| ==> !IsSpace(text[j]))
    decreases |text| - i
  {
    if i < |text| && IsSpace(text[i]) then SpaceEnd(text, i + 1) else i
  }

  /** The last line end in `[a, b)`. */
  function LastLineEnd(text: Text, a: nat, b: nat): (p: Option<nat>)
    requires a <= b <= |text|
    ensures p.Some? ==> a <= p.value < b && IsLineEnd(text[p.value])
    ensures forall k :: a <= k < b && (p.None? || p.value < k) ==> !IsLineEnd(text[k])
  {
    if a == b then None else if IsLineEnd(text[b - 1]) then Some(b - 1) else LastLineEnd(text, a, b - 1)
  }

  // ---- Fences --------------------------------------------------------------------------------------------

  /** A fence line: where it starts, where its match ends, and its language tag. */
  datatype Fence = Fence(open: nat, end: nat, lang: Text)

  /** Three ticks at a line start, a word, and white space up to the end of the text or to its last line end. */
  function FenceAt(text: Text, i: nat): (f: Option<Fence>)
    requires i <= |text|
    ensures f.Some? ==> f.value.open == i && i + 3 <= f.value.end <= |text|
    ensures f.Some? ==> text[i..i + 3] == TICKS && f.value.lang == text[i + 3..WordEnd(text, i + 3)]
  {
    if (i == 0 || IsLineEnd(text[i - 1])) && i + 3 <= |text| && text[i..i + 3] == TICKS then
      var w := WordEnd(text, i + 3);
      var s := SpaceEnd(text, w);
      if s == |text| then Some(Fence(i, s, text[i + 3..w]))
      else
        match LastLineEnd(text, w, s)
        case Some(p) => Some(Fence(i, p, text[i + 3..w]))
        case None => None
    else None
  }

  /** The first fence at or after `i`. */
  function NextFence(text: Text, i: nat): (f: Option<Fence>)
    requires i <= |text|
    ensures f.Some? ==> i <= f.value.open && f.value.open + 3 <= f.value.end <= |text|
    ensures f.Some? ==> FenceAt(text, f.value.open) == f
    ensures forall k :: i <= k <= |text| && (f.None? || k < f.value.open) ==> FenceAt(text, k).None?
    decreases |text| - i
  {
    if FenceAt(text, i).Some? then FenceAt(text, i) else if i == |text| then None else NextFence(text, i + 1)
  }

  datatype Block = Block(open: nat, close: nat, lang: Text)

  /** Pairs of fences from `i` on; an unclosed block reaches to the end of the text. */
  function Blocks(text: Text, i: nat): seq<Block>
    requires i <= |text|
    decreases |text| - i
  {
    match NextFence(text, i)
    case None => []
    case Some(f) => BlocksFrom(text, f)
  }

  /** The blocks from an opening fence on. */
  function BlocksFrom(text: Text, f: Fence): seq<Block>
    requires f.open + 3 <= f.end <= |text|
    decreases |text| - f.end, 1
  {
    match NextFence(text, f.end)
    case None => [Block(f.open, |text|, f.lang)]
    case Some(g) => [Block(f.open, g.end, f.lang)] + Blocks(text, g.end)
  }

  method FindCodeBlockRanges(text: Text) returns (ranges: seq<Block>)
    ensures ranges == Blocks(text, 0)
  {
    hide FenceAt;
    ranges := [];
    var at: nat := 0;
    var openFence: Option<Fence> := None;
    var next := NextFence(text, 0);
    while next.Some?
      invariant at <= |text| && next == NextFence(text, at)
      invariant openFence.Some? ==> openFence.value.open + 3 <= openFence.value.end == at
      invariant ranges + (if openFence.Some? then BlocksFrom(text, openFence.value) else Blocks(text, at)) ==
        Blocks(text, 0)
      decreases |text| - at
    {
      var f := next.value;
      if openFence.None? {
        openFence := Some(f);
      } else {
        ghost var rest := Blocks(text, f.end);
        var block := Block(openFence.value.open, f.end, openFence.value.lang);
        assert ranges + ([block] + rest) == ranges + [block] + rest;
        ranges := ranges + [block];
        openFence := None;
      }
      at := f.end;
      next := NextFence(text, at);
    }
    if openFence.Some? {
      ranges := ranges + [Block(openFence.value.open, |text|, openFence.value.lang)];
    }
  }

  predicate Inside(pos: nat, b: Block) { b.open < pos < b.close }

  /** The first block a position lies strictly inside of. */
  function Containing(pos: nat, blocks: seq<Block>): (b: Option<Block>)
    ensures b.Some? ==> Inside(pos, b.value) && b.value in blocks
    ensures b.None? ==> forall c <- blocks :: !Inside(pos, c)
  {
    if blocks == [] then None else if Inside(pos, blocks[0]) then Some(blocks[0]) else Containing(pos, blocks[1..])
  }

  method FindContainingBlock(pos: nat, blocks: seq<Block>) returns (b: Option<Block>)
    ensures b == Containing(pos, blocks)
  {
    for i := 0 to |blocks|
      invariant Containing(pos, blocks) == Containing(pos, blocks[i..])
    {
      assert blocks[i..][1..] == blocks[i + 1..];
      if Inside(pos, blocks[i]) {
        return Some(blocks[i]);
      }
    }
    return None;
  }

  /** A block starts at three ticks with its language tag behind them, at or after `i`. */
  predicate BlockOk(text: Text, i: nat, b: Block) {
    && i <= b.open < b.close <= |text| && b.open + 3 <= |text| && text[b.open..b.open + 3] == TICKS
    && b.lang == text[b.open + 3..WordEnd(text, b.open + 3)]
  }

  lemma FenceStarts(text: Text, i: nat, close: nat)
    requires i <= |text| && NextFence(text, i).Some? && NextFence(text, i).value.open < close <= |text|
    ensures var f := NextFence(text, i).value; BlockOk(text, i, Block(f.open, close, f.lang))
  {
    hide FenceAt;
    var f := NextFence(text, i).value;
    assert FenceAt(text, f.open) == Some(f);
  }

  lemma Earlier(text: Text, i: nat, j: nat, b: Block)
    requires BlockOk(text, j, b) && i <= j
    ensures BlockOk(text, i, b)
  {
  }

  lemma {:induction false} BlocksOk(text: Text, i: nat, b: Block)
    requires i <= |text| && b in Blocks(text, i)
    ensures BlockOk(text, i, b)
    decreases |text| - i
  {
    var f := NextFence(text, i).value;
    var next := NextFence(text, f.end);
    hide FenceAt, BlockOk, NextFence;
    match next
    case None => FenceStarts(text, i, |text|);
    case Some(g) =>
      FenceStarts(text, i, g.end);
      if b != Block(f.open, g.end, f.lang) {
        BlocksOk(text, g.end, b);
        Earlier(text, i, g.end, b);
      }
  }
}
