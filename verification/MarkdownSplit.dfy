/** Splitting markdown into chunks: one cut, the rounds of the loop, and what the chunks hold. */
module MarkdownSplit {
  import opened Options
  import opened Utf8
  import opened MarkdownFences

  // ---- Text helpers ----------------------------------------------------------------------------------------

  /** The last blank line break starting at or before `p`; -1 when there is none. */
  function LastDouble(text: Text, p: nat): (q: int)
    ensures -1 <= q <= p && (q >= 0 ==> q + 2 <= |text| && text[q] == NL && text[q + 1] == NL)
    ensures forall k :: q < k <= p && k + 2 <= |text| ==> !(text[k] == NL && text[k + 1] == NL)
  {
    if p + 2 <= |text| && text[p] == NL && text[p + 1] == NL then p else if p == 0 then -1 else LastDouble(text, p - 1)
  }

  /** The last newline at or before `p`; -1 when there is none. */
  function LastNewline(text: Text, p: nat): (q: int)
    ensures -1 <= q <= p && (q >= 0 ==> q < |text| && text[q] == NL)
    ensures forall k :: q < k <= p && k < |text| ==> text[k] != NL
  {
    if p < |text| && text[p] == NL then p else if p == 0 then -1 else LastNewline(text, p - 1)
  }

  function TrimEnd(text: Text): (r: Text)
    ensures |r| <= |text| && r == text[..|r|] && (r != [] ==> !IsSpace(r[|r| - 1]))
    ensures forall k :: |r| <= k < |text| ==> IsSpace(text[k])
  {
    if text != [] && IsSpace(text[|text| - 1]) then TrimEnd(text[..|text| - 1]) else text
  }

  /** How many newlines stand in front; at most one is counted when only `one` is asked for. */
  function Newlines(text: Text, one: bool): (n: nat)
    ensures n <= |text| && forall k :: 0 <= k < n ==> text[k] == NL
    ensures text != [] && text[0] == NL ==> n > 0
  {
    if text == [] || text[0] != NL then 0 else if one then 1 else 1 + Newlines(text[1..], false)
  }

  /** Without the newlines in front, or without the first of them. */
  function SkipNewlines(text: Text, one: bool): Text { text[Newlines(text, one)..] }

  // ---- One cut -----------------------------------------------------------------------------------------------

  /** Whether a position is below three tenths of the limit. */
  predicate TooEarly(pos: int, maxLen: nat) { 10 * pos < 3 * maxLen }

  /** Where a cut is tried first: a blank line, else a line end, else the limit. */
  function SplitPoint(text: Text, maxLen: nat): (idx: nat)
    ensures idx <= maxLen && !TooEarly(idx, maxLen) && (idx == maxLen || (idx < |text| && text[idx] == NL))
  {
    var double := LastDouble(text, maxLen);
    var newline := if TooEarly(double, maxLen) then LastNewline(text, maxLen) else double;
    if TooEarly(newline, maxLen) then maxLen else newline
  }

  /** A cut: the chunk, what remains, and the language of the block that was closed and reopened, if any. */
  datatype Cut = Cut(at: nat, chunk: Text, rest: Text, seam: Option<Text>)

  function Reopener(lang: Text): Text { TICKS + lang + [NL] }

  /** Where to retreat to in front of a block. */
  function RetreatPoint(text: Text, open: nat, maxLen: nat): (idx: nat)
    ensures idx <= open && (10 * open > 3 * maxLen ==> 10 * idx > 3 * maxLen)
  {
    var retreat := LastNewline(text, open);
    if 10 * retreat > 3 * maxLen then retreat else open
  }

  function CutAt(text: Text, maxLen: nat, idx: nat, block: Option<Block>): (c: Cut)
    requires idx <= |text| && (block.Some? ==> block.value.open <= |text|)
  {
    match block
    case None => Cut(idx, TrimEnd(text[..idx]), SkipNewlines(text[idx..], false), None)
    case Some(b) =>
      if b.open > 0 && 10 * b.open > 3 * maxLen then
        var at := RetreatPoint(text, b.open, maxLen);
        Cut(at, TrimEnd(text[..at]), SkipNewlines(text[at..], false), None)
      else
        Cut(idx, TrimEnd(text[..idx]) + [NL] + TICKS, Reopener(b.lang) + SkipNewlines(text[idx..], true), Some(b.lang))
  }

  function CutOf(text: Text, maxLen: nat): Cut
    requires |text| > maxLen
  {
    var block := Containing(SplitPoint(text, maxLen), Blocks(text, 0));
    if block.Some? then
      BlocksOk(text, 0, block.value);
      CutAt(text, maxLen, SplitPoint(text, maxLen), block)
    else CutAt(text, maxLen, SplitPoint(text, maxLen), None)
  }

  /** The block a cut closes and reopens: it holds the split point and starts too early to retreat to. */
  function ClosedBlock(text: Text, maxLen: nat): Option<Block> {
    var block := Containing(SplitPoint(text, maxLen), Blocks(text, 0));
    if block.Some? && 10 * block.value.open <= 3 * maxLen then block else None
  }

  /** A block is closed less than four characters below the limit. */
  predicate CutsLong(text: Text, maxLen: nat)
    requires |text| > maxLen
  {
    ClosedBlock(text, maxLen).Some? && |TrimEnd(text[..SplitPoint(text, maxLen)])| + 4 > maxLen
  }

  lemma OpenBefore(text: Text, b: Block)
    requires BlockOk(text, 0, b)
    ensures b.open <= |text|
  {
  }

  /** The seam behind a chunk is the language of the block that was closed. */
  lemma SeamIsClosedBlock(text: Text, maxLen: nat)
    requires |text| > maxLen
    ensures var (c, b) := (CutOf(text, maxLen), ClosedBlock(text, maxLen));
      && c.seam == (if b.Some? then Some(b.value.lang) else None)
      && (b.Some? ==> c.chunk == TrimEnd(text[..SplitPoint(text, maxLen)]) + [NL] + TICKS)
      && (b.None? ==> |c.chunk| <= maxLen)
  {
    hide Blocks, BlockOk, SkipNewlines, TrimEnd, Reopener;
    var idx := SplitPoint(text, maxLen);
    var block := Containing(idx, Blocks(text, 0));
    if block.Some? {
      BlocksOk(text, 0, block.value);
      OpenBefore(text, block.value);
    }
  }

  /** A chunk is longer than the limit exactly when a block is closed less than four characters below it. */
  lemma ChunkExceedsLimit(text: Text, maxLen: nat)
    requires |text| > maxLen
    ensures |CutOf(text, maxLen).chunk| > maxLen <==> CutsLong(text, maxLen)
  {
    hide CutOf, ClosedBlock, TrimEnd, SplitPoint;
    SeamIsClosedBlock(text, maxLen);
  }

  /** What remains of a text after `k` rounds of the loop. */
  function Remaining(text: Text, maxLen: nat, k: nat): Text {
    if k == 0 then text
    else
      var r := Remaining(text, maxLen, k - 1);
      if |r| <= maxLen then r else CutOf(r, maxLen).rest
  }

  /** The loop is left after some number of rounds. */
  ghost predicate Ends(text: Text, maxLen: nat) { exists k: nat :: |Remaining(text, maxLen, k)| <= maxLen }

  lemma {:induction false} OneRoundEarlier(text: Text, maxLen: nat, k: nat)
    requires |text| > maxLen
    ensures Remaining(text, maxLen, k + 1) == Remaining(CutOf(text, maxLen).rest, maxLen, k)
  {
    hide CutOf;
    if k == 0 {
      assert Remaining(text, maxLen, 0) == text;
    } else {
      OneRoundEarlier(text, maxLen, k - 1);
    }
  }

  // ---- Reopened blocks ---------------------------------------------------------------------------------------

  predicate IsTag(lang: Text) { forall k :: 0 <= k < |lang| ==> IsWord(lang[k]) }

  predicate TicksAt(text: Text, i: nat) { i + 3 <= |text| && text[i..i + 3] == TICKS }

  lemma WordEndIs(text: Text, i: nat, j: nat)
    requires i <= j <= |text| && (forall k :: i <= k < j ==> IsWord(text[k])) && (j < |text| ==> !IsWord(text[j]))
    ensures WordEnd(text, i) == j
  {
    var e := WordEnd(text, i);
    assert e < |text| ==> !IsWord(text[e]);
  }

  /** The units of a reopened block. */
  lemma ReopenedUnits(lang: Text, text: Text)
    ensures var (all, m) := (Reopener(lang) + text, 4 + |lang|);
      && |all| == m + |text|
      && forall k :: 0 <= k < |all| ==>
          all[k] == if k < 3 then TICK else if k < m - 1 then lang[k - 3] else if k < m then NL else text[k - m]
  {
  }

  /** The only ticks that touch a reopening fence are its own. */
  lemma TicksInReopened(lang: Text, text: Text, i: nat)
    requires TicksAt(Reopener(lang) + text, i) && IsTag(lang)
    ensures i == 0 || i >= 4 + |lang|
  {
    var all, m := Reopener(lang) + text, 4 + |lang|;
    ReopenedUnits(lang, text);
    assert all[i..i + 3][0] == TICK && all[i..i + 3][1] == TICK && all[i..i + 3][2] == TICK;
    hide Reopener;
    assert all[i] == TICK && all[i + 1] == TICK && all[i + 2] == TICK;
  }

  /** A reopened block starts the text, with the tag put there, and reaches beyond its fence. */
  lemma ReopenedBlock(lang: Text, tail: Text)
    requires IsTag(lang)
    ensures var blocks := Blocks(Reopener(lang) + tail, 0);
      blocks != [] && blocks[0].open == 0 && blocks[0].close > |lang| + 3 && blocks[0].lang == lang
  {
    var (text, w) := (Reopener(lang) + tail, |lang| + 3);
    ReopenedUnits(lang, tail);
    WordEndIs(text, 3, w);
    assert text[0..3] == TICKS && text[3..w] == lang;
    hide Reopener;
    var s := SpaceEnd(text, w);
    assert s > w && IsLineEnd(text[w]);
    var p := LastLineEnd(text, w, s);
    assert p.Some?;
    assert FenceAt(text, 0).Some? && FenceAt(text, 0).value.lang == lang && FenceAt(text, 0).value.end >= w;
    hide FenceAt;
  }

  lemma ReopenedSplit(lang: Text, tail: Text, maxLen: nat)
    requires IsTag(lang)
    ensures var idx := SplitPoint(Reopener(lang) + tail, maxLen); idx == maxLen || idx >= |lang| + 3
  {
    ReopenedUnits(lang, tail);
    hide Reopener;
  }

  /** A retreat in front of a later block stays behind the tag of the reopened one. */
  lemma ReopenedRetreat(lang: Text, tail: Text, maxLen: nat, b: Block)
    requires IsTag(lang) && BlockOk(Reopener(lang) + tail, 0, b)
    ensures b.open > 0 ==> RetreatPoint(Reopener(lang) + tail, b.open, maxLen) >= |lang| + 3
  {
    ReopenedUnits(lang, tail);
    assert TicksAt(Reopener(lang) + tail, b.open);
    TicksInReopened(lang, tail, b.open);
    hide Reopener;
  }

  /** A text that starts with a reopening fence within the limit is cut behind the fence's tag. */
  lemma ReopenedCut(lang: Text, tail: Text, maxLen: nat)
    requires IsTag(lang) && |lang| + 3 <= maxLen < |Reopener(lang) + tail|
    ensures CutOf(Reopener(lang) + tail, maxLen).at >= |lang| + 3
  {
    hide Reopener, Blocks, SplitPoint, BlockOk, SkipNewlines, TrimEnd, RetreatPoint, IsTag;
    var text := Reopener(lang) + tail;
    ReopenedSplit(lang, tail, maxLen);
    var block := Containing(SplitPoint(text, maxLen), Blocks(text, 0));
    if block.Some? {
      BlocksOk(text, 0, block.value);
      ReopenedRetreat(lang, tail, maxLen, block.value);
      OpenBefore(text, block.value);
    }
  }

  /** A fence longer than the limit is reopened by every cut. */
  lemma LongTagStays(lang: Text, tail: Text, maxLen: nat) returns (left: Text)
    requires IsTag(lang) && |lang| + 3 > maxLen
    ensures |Reopener(lang) + tail| > maxLen && CutOf(Reopener(lang) + tail, maxLen).rest == Reopener(lang) + left
  {
    var text := Reopener(lang) + tail;
    ReopenedUnits(lang, tail);
    ReopenedSplit(lang, tail, maxLen);
    ReopenedBlock(lang, tail);
    var blocks := Blocks(text, 0);
    var block := Containing(maxLen, blocks);
    hide Blocks, SplitPoint, Reopener;
    if maxLen > 0 {
      assert Inside(maxLen, blocks[0]) && block == Some(blocks[0]);
      left := SkipNewlines(text[maxLen..], true);
    } else {
      assert forall b <- blocks :: !Inside(0, b);
      assert text[0] == TICK && text[0..] == text;
      left := tail;
    }
    hide SkipNewlines, TrimEnd;
  }

  lemma {:induction false} LongTagRemains(lang: Text, tail: Text, maxLen: nat, k: nat) returns (left: Text)
    requires IsTag(lang) && |lang| + 3 > maxLen
    ensures Remaining(Reopener(lang) + tail, maxLen, k) == Reopener(lang) + left
  {
    hide CutOf, Reopener;
    if k == 0 {
      left := tail;
    } else {
      left := LongTagRemains(lang, tail, maxLen, k - 1);
      left := LongTagStays(lang, left, maxLen);
    }
  }

  /** A text whose first fence is longer than the limit is cut for ever. */
  lemma LongTagNeverEnds(lang: Text, tail: Text, maxLen: nat)
    requires IsTag(lang) && |lang| + 3 > maxLen
    ensures !Ends(Reopener(lang) + tail, maxLen)
  {
    forall k: nat ensures |Remaining(Reopener(lang) + tail, maxLen, k)| > maxLen {
      var left := LongTagRemains(lang, tail, maxLen, k);
      ReopenedUnits(lang, left);
    }
  }

  lemma SeamIsTag(text: Text, maxLen: nat)
    requires |text| > maxLen
    ensures CutOf(text, maxLen).seam.Some? ==> IsTag(CutOf(text, maxLen).seam.value)
  {
    SeamIsClosedBlock(text, maxLen);
    var b := ClosedBlock(text, maxLen);
    if b.Some? {
      BlocksOk(text, 0, b.value);
    }
    hide CutOf, Blocks, SplitPoint;
  }

  /** One round of a text whose cutting ends leaves a text whose cutting ends, a round sooner. */
  lemma EndsSooner(text: Text, maxLen: nat, k: nat)
    requires |text| > maxLen && |Remaining(text, maxLen, k)| <= maxLen
    ensures k > 0 && |Remaining(CutOf(text, maxLen).rest, maxLen, k - 1)| <= maxLen
  {
    hide CutOf;
    OneRoundEarlier(text, maxLen, k - 1);
  }

  // ---- What the chunks hold ------------------------------------------------------------------------------------

  /** The text without its white space. */
  function Solid(text: Text): Text {
    if text == [] then [] else Solid(text[..|text| - 1]) + if IsSpace(text[|text| - 1]) then [] else [text[|text| - 1]]
  }

  lemma {:induction false} SolidConcat(a: Text, b: Text)
    ensures Solid(a + b) == Solid(a) + Solid(b)
  {
    if b == [] {
      assert a + b == a;
    } else {
      assert (a + b)[..|a + b| - 1] == a + b[..|b| - 1];
      SolidConcat(a, b[..|b| - 1]);
    }
  }

  lemma {:induction false} SolidSpace(text: Text)
    requires forall k :: 0 <= k < |text| ==> IsSpace(text[k])
    ensures Solid(text) == []
  {
    if text != [] {
      SolidSpace(text[..|text| - 1]);
    }
  }

  lemma SolidTrim(text: Text)
    ensures Solid(TrimEnd(text)) == Solid(text)
  {
    var r := TrimEnd(text);
    assert text == r + text[|r|..];
    SolidConcat(r, text[|r|..]);
    SolidSpace(text[|r|..]);
  }

  lemma SolidSkip(text: Text, one: bool)
    ensures Solid(SkipNewlines(text, one)) == Solid(text)
  {
    var k := Newlines(text, one);
    hide Solid, Newlines;
    assert text == text[..k] + text[k..];
    SolidConcat(text[..k], text[k..]);
    SolidSpace(text[..k]);
  }

  /** What a seam puts in front of the next chunk, and behind its own. */
  function Opener(seam: Option<Text>): Text { if seam.Some? then Reopener(seam.value) else [] }

  function Closer(seam: Option<Text>): Text { if seam.Some? then [NL] + TICKS else [] }

  /** A chunk is some original text with the fences of its seams around it, white space aside. */
  ghost predicate Holds(chunk: Text, before: Option<Text>, part: Text, after: Option<Text>) {
    Solid(chunk) == Solid(Opener(before)) + part + Solid(Closer(after))
  }

  lemma CutIs(text: Text, maxLen: nat)
    requires |text| > maxLen
    ensures var c := CutOf(text, maxLen);
      && c.at <= maxLen && c.chunk == TrimEnd(text[..c.at]) + Closer(c.seam)
      && exists one: bool :: c.rest == Opener(c.seam) + SkipNewlines(text[c.at..], one)
  {
    hide Blocks, BlockOk, SkipNewlines, TrimEnd, Reopener;
    var idx := SplitPoint(text, maxLen);
    var block := Containing(idx, Blocks(text, 0));
    var c := CutOf(text, maxLen);
    assert forall t: Text :: t + [] == t;
    assert forall t: Text :: [] + t == t;
    if block.Some? {
      BlocksOk(text, 0, block.value);
      OpenBefore(text, block.value);
    }
    assert c.seam.Some? || c.rest == Opener(c.seam) + SkipNewlines(text[c.at..], false);
    assert c.seam.None? || c.rest == Opener(c.seam) + SkipNewlines(text[c.at..], true);
  }

  lemma ChunkHolds(head: Text, close: Text)
    ensures Solid(TrimEnd(head) + close) == Solid(head) + Solid(close)
  {
    hide Solid, TrimEnd;
    SolidConcat(TrimEnd(head), close);
    SolidTrim(head);
  }

  lemma Sliced(head: Text, tail: Text, at: nat)
    requires |head| <= at <= |head + tail|
    ensures var n := at - |head|;
      (head + tail)[..at] == head + tail[..n] && (head + tail)[at..] == tail[n..] && tail == tail[..n] + tail[n..]
  {
  }

  /** A cut on the line end of a reopening fence leaves the fence in front and the tail behind. */
  lemma CutAtFence(lang: Text, tail: Text)
    ensures var text := Reopener(lang) + tail;
      && Solid(text[..|lang| + 3]) == Solid(Reopener(lang)) && Solid(text[|lang| + 3..]) == Solid(tail)
  {
    var text := Reopener(lang) + tail;
    assert text[..|lang| + 3] == TICKS + lang && text[|lang| + 3..] == [NL] + tail;
    hide Solid;
    SolidSpace([NL]);
    SolidConcat(TICKS + lang, [NL]);
    SolidConcat([NL], tail);
    assert Solid(TICKS + lang) + [] == Solid(TICKS + lang);
    assert [] + Solid(tail) == Solid(tail);
  }

  /** A cut behind the tag of the reopening fence keeps the fence whole, and divides the original text. */
  lemma CutDivides(seam: Option<Text>, tail: Text, at: nat) returns (part: Text)
    requires at <= |Opener(seam) + tail| && (seam.Some? ==> at >= |seam.value| + 3)
    ensures var text := Opener(seam) + tail;
      Solid(text[..at]) == Solid(Opener(seam)) + part && part + Solid(text[at..]) == Solid(tail)
  {
    var head := Opener(seam);
    if at < |head| {
      part := [];
      CutAtFence(seam.value, tail);
    } else {
      part := Solid(tail[..at - |head|]);
      hide Solid, Opener;
      Sliced(head, tail, at);
      SolidConcat(head, tail[..at - |head|]);
      SolidConcat(tail[..at - |head|], tail[at - |head|..]);
    }
  }

  /** A cut takes the part of the original text up to the cut, and leaves the rest behind its seam. */
  lemma CutHolds(seam: Option<Text>, tail: Text, maxLen: nat) returns (part: Text, left: Text)
    requires |Opener(seam) + tail| > maxLen
    requires seam.Some? ==> IsTag(seam.value) && |seam.value| + 3 <= maxLen
    ensures var c := CutOf(Opener(seam) + tail, maxLen);
      && Holds(c.chunk, seam, part, c.seam) && c.rest == Opener(c.seam) + left
      && part + Solid(left) == Solid(tail) && |c.chunk| <= maxLen + 4
  {
    hide CutOf, Solid, TrimEnd, SkipNewlines;
    var text := Opener(seam) + tail;
    var c := CutOf(text, maxLen);
    if seam.Some? {
      ReopenedCut(seam.value, tail, maxLen);
    }
    CutIs(text, maxLen);
    var one: bool :| c.rest == Opener(c.seam) + SkipNewlines(text[c.at..], one);
    hide Opener, Closer;
    part := CutDivides(seam, tail, c.at);
    left := SkipNewlines(text[c.at..], one);
    SolidSkip(text[c.at..], one);
    ChunkHolds(text[..c.at], Closer(c.seam));
  }

  // ---- The loop --------------------------------------------------------------------------------------------------

  function Joined(parts: seq<Text>): Text {
    if parts == [] then [] else Joined(parts[..|parts| - 1]) + parts[|parts| - 1]
  }

  function Before(seams: seq<Option<Text>>, i: nat): Option<Text>
    requires i <= |seams|
  {
    if i == 0 then None else seams[i - 1]
  }

  /** The cut once the split point and the block it lies in are known. */
  method CutThere(text: Text, maxLen: nat, idx: nat, block: Option<Block>) returns (c: Cut)
    requires idx <= |text| && (block.Some? ==> block.value.open <= |text|)
    ensures c == CutAt(text, maxLen, idx, block)
  {
    hide SkipNewlines, TrimEnd, Reopener;
    if block.Some? {
      var b := block.value;
      if b.open > 0 && 10 * b.open > 3 * maxLen {
        var retreat := LastNewline(text, b.open);
        var at := if 10 * retreat > 3 * maxLen then retreat else b.open;
        c := Cut(at, TrimEnd(text[..at]), SkipNewlines(text[at..], false), None);
      } else {
        c := Cut(idx, TrimEnd(text[..idx]) + [NL] + TICKS, Reopener(b.lang) + SkipNewlines(text[idx..], true),
          Some(b.lang));
      }
    } else {
      c := Cut(idx, TrimEnd(text[..idx]), SkipNewlines(text[idx..], false), None);
    }
  }

  method CutOnce(text: Text, maxLen: nat) returns (c: Cut)
    requires |text| > maxLen
    ensures c == CutOf(text, maxLen)
  {
    hide Blocks, BlockOk, CutAt;
    var ranges := FindCodeBlockRanges(text);
    var idx: int := LastDouble(text, maxLen);
    if 10 * idx < 3 * maxLen {
      idx := LastNewline(text, maxLen);
    }
    if 10 * idx < 3 * maxLen {
      idx := maxLen;
    }
    var block := FindContainingBlock(idx, ranges);
    if block.Some? {
      BlocksOk(text, 0, block.value);
      OpenBefore(text, block.value);
    }
    c := CutThere(text, maxLen, idx, block);
  }

  /** What is said of the chunks so far. */
  ghost predicate AllHold(chunks: seq<Text>, seams: seq<Option<Text>>, parts: seq<Text>, maxLen: nat) {
    && |seams| == |chunks| == |parts|
    && forall i :: 0 <= i < |chunks| ==>
        |chunks[i]| <= maxLen + 4 && Holds(chunks[i], Before(seams, i), parts[i], seams[i])
  }

  /** Chunk and seam are those of the `i`-th round of the loop. */
  ghost predicate OfRound(text: Text, maxLen: nat, i: nat, chunk: Text, seam: Option<Text>) {
    var r := Remaining(text, maxLen, i);
    if |r| > maxLen then
      var b := ClosedBlock(r, maxLen);
      chunk == CutOf(r, maxLen).chunk && seam == if b.Some? then Some(b.value.lang) else None
    else chunk == r && seam == None
  }

  /** The chunks are those of the rounds, one after the other, and the last round leaves nothing to cut. */
  ghost predicate AllRounds(text: Text, maxLen: nat, chunks: seq<Text>, seams: seq<Option<Text>>) {
    && |seams| == |chunks| && |Remaining(text, maxLen, |chunks|)| <= maxLen
    && forall i :: 0 <= i < |chunks| ==> OfRound(text, maxLen, i, chunks[i], seams[i])
  }

  lemma {:induction false} NothingLeft(text: Text, maxLen: nat, k: nat, j: nat)
    requires k <= j && |Remaining(text, maxLen, k)| <= maxLen
    ensures |Remaining(text, maxLen, j)| <= maxLen
  {
    hide CutOf;
    if k < j {
      NothingLeft(text, maxLen, k, j - 1);
    }
  }

  /** Some chunk is over the limit exactly when some round closes a block less than four characters below it. */
  lemma LongChunks(text: Text, maxLen: nat, chunks: seq<Text>, seams: seq<Option<Text>>)
    requires AllRounds(text, maxLen, chunks, seams)
    ensures (exists i :: 0 <= i < |chunks| && |chunks[i]| > maxLen) <==>
      (exists k: nat :: |Remaining(text, maxLen, k)| > maxLen && CutsLong(Remaining(text, maxLen, k), maxLen))
  {
    hide Remaining, CutOf, CutsLong, ClosedBlock;
    forall i | 0 <= i < |chunks|
      ensures var r := Remaining(text, maxLen, i); |chunks[i]| > maxLen <==> |r| > maxLen && CutsLong(r, maxLen)
    {
      assert OfRound(text, maxLen, i, chunks[i], seams[i]);
      if |Remaining(text, maxLen, i)| > maxLen {
        ChunkExceedsLimit(Remaining(text, maxLen, i), maxLen);
      }
    }
    forall k: nat | |Remaining(text, maxLen, k)| > maxLen ensures k < |chunks| {
      if k >= |chunks| {
        NothingLeft(text, maxLen, |chunks|, k);
      }
    }
    if i :| 0 <= i < |chunks| && |chunks[i]| > maxLen {
      assert |Remaining(text, maxLen, i)| > maxLen && CutsLong(Remaining(text, maxLen, i), maxLen);
    }
    if k: nat :| |Remaining(text, maxLen, k)| > maxLen && CutsLong(Remaining(text, maxLen, k), maxLen) {
      assert |chunks[k]| > maxLen;
    }
  }

  lemma OneMore(chunks: seq<Text>, seams: seq<Option<Text>>, parts: seq<Text>, maxLen: nat,
                chunk: Text, seam: Option<Text>, part: Text)
    requires AllHold(chunks, seams, parts, maxLen)
    requires |chunk| <= maxLen + 4 && Holds(chunk, Before(seams, |seams|), part, seam)
    ensures AllHold(chunks + [chunk], seams + [seam], parts + [part], maxLen)
    ensures Joined(parts + [part]) == Joined(parts) + part && Before(seams + [seam], |seams| + 1) == seam
  {
    hide Holds;
    assert (parts + [part])[..|parts|] == parts;
    var (cs, ss, ps) := (chunks + [chunk], seams + [seam], parts + [part]);
    forall i | 0 <= i < |cs| ensures |cs[i]| <= maxLen + 4 && Holds(cs[i], Before(ss, i), ps[i], ss[i]) {
      if i < |chunks| {
        assert cs[i] == chunks[i] && ss[i] == seams[i] && ps[i] == parts[i] && Before(ss, i) == Before(seams, i);
      }
    }
  }

  lemma EmptyLeft(before: Option<Text>, tail: Text)
    requires Opener(before) + tail == []
    ensures before == None && Solid(tail) == []
  {
  }

  lemma WholeChunk(chunk: Text, before: Option<Text>, tail: Text)
    requires chunk == Opener(before) + tail
    ensures Holds(chunk, before, Solid(tail), None)
  {
    SolidConcat(Opener(before), tail);
    assert Solid(chunk) + [] == Solid(chunk);
  }

  lemma EmptyHolds(maxLen: nat)
    ensures AllHold([], [], [], maxLen) && Joined([]) == [] && Before([], 0) == None
    ensures forall t: Text :: Opener(None) + t == t
  {
  }

  lemma LastRound(text: Text, maxLen: nat, k: nat)
    requires |Remaining(text, maxLen, k)| <= maxLen
    ensures OfRound(text, maxLen, k, Remaining(text, maxLen, k), None)
    ensures |Remaining(text, maxLen, k + 1)| <= maxLen
  {
    hide CutOf, Remaining;
    NothingLeft(text, maxLen, k, k + 1);
  }

  /** A round cuts what the rounds before left. */
  lemma NextRound(text: Text, maxLen: nat, k: nat)
    requires |Remaining(text, maxLen, k)| > maxLen
    ensures var c := CutOf(Remaining(text, maxLen, k), maxLen);
      OfRound(text, maxLen, k, c.chunk, c.seam) && Remaining(text, maxLen, k + 1) == c.rest
  {
    hide CutOf, ClosedBlock;
    SeamIsClosedBlock(Remaining(text, maxLen, k), maxLen);
  }

  /** Where cutting ends, the fence in front of what remains is within the limit. */
  lemma SeamFits(seam: Option<Text>, tail: Text, maxLen: nat)
    requires (seam.Some? ==> IsTag(seam.value)) && Ends(Opener(seam) + tail, maxLen)
    ensures seam.Some? ==> |seam.value| + 3 <= maxLen
  {
    if seam.Some? && |seam.value| + 3 > maxLen {
      LongTagNeverEnds(seam.value, tail, maxLen);
    }
    hide Ends;
  }

  lemma FirstRound(text: Text, maxLen: nat)
    ensures Remaining(text, maxLen, 0) == text
  {
  }

  /**
   * Split a text into chunks, one a round. They are at most `maxLen + 4` long, and longer than `maxLen`
   * exactly when some round closes a block less than four characters below it. Without white space, and
   * without the fences put in where a block was closed behind chunk `i` and reopened in front of the next
   * one (`seams[i]` is its language), the chunks are the text.
   */
  method ChunkMarkdown(text: Text, maxLen: nat)
    returns (chunks: seq<Text>, ghost seams: seq<Option<Text>>, ghost parts: seq<Text>)
    requires Ends(text, maxLen)
    ensures |text| <= maxLen ==> chunks == [text]
    ensures AllRounds(text, maxLen, chunks, seams)
    ensures (exists i :: 0 <= i < |chunks| && |chunks[i]| > maxLen) <==>
      (exists k: nat :: |Remaining(text, maxLen, k)| > maxLen && CutsLong(Remaining(text, maxLen, k), maxLen))
    ensures AllHold(chunks, seams, parts, maxLen) && Solid(text) == Joined(parts)
    ensures Before(seams, |seams|) == None
  {
    hide Solid, CutOf, IsTag, Holds, AllHold, Before, Joined, Opener, OfRound, Remaining, CutsLong;
    EmptyHolds(maxLen);
    assert [] + Solid(text) == Solid(text);
    FirstRound(text, maxLen);
    if |text| <= maxLen {
      WholeChunk(text, None, text);
      OneMore([], [], [], maxLen, text, None, Solid(text));
      LastRound(text, maxLen, 0);
      chunks, seams, parts := [] + [text], [] + [None], [] + [Solid(text)];
      LongChunks(text, maxLen, chunks, seams);
      return;
    }
    chunks, seams, parts := [], [], [];
    var remaining := text;
    ghost var tail := text;
    ghost var rounds: nat :| |Remaining(text, maxLen, rounds)| <= maxLen;
    while |remaining| > maxLen
      invariant |Remaining(remaining, maxLen, rounds)| <= maxLen
      invariant |seams| == |chunks| && remaining == Opener(Before(seams, |seams|)) + tail
      invariant Before(seams, |seams|).Some? ==> IsTag(Before(seams, |seams|).value)
      invariant Joined(parts) + Solid(tail) == Solid(text) && AllHold(chunks, seams, parts, maxLen)
      invariant remaining == Remaining(text, maxLen, |chunks|)
      invariant forall i :: 0 <= i < |chunks| ==> OfRound(text, maxLen, i, chunks[i], seams[i])
      decreases rounds
    {
      EndsSooner(remaining, maxLen, rounds);
      SeamIsTag(remaining, maxLen);
      SeamFits(Before(seams, |seams|), tail, maxLen);
      NextRound(text, maxLen, |chunks|);
      var c := CutOnce(remaining, maxLen);
      ghost var part, left := CutHolds(Before(seams, |seams|), tail, maxLen);
      assert Joined(parts) + (part + Solid(left)) == Joined(parts) + part + Solid(left);
      OneMore(chunks, seams, parts, maxLen, c.chunk, c.seam, part);
      chunks, seams, parts := chunks + [c.chunk], seams + [c.seam], parts + [part];
      remaining, tail, rounds := c.rest, left, rounds - 1;
    }
    if |remaining| > 0 {
      WholeChunk(remaining, Before(seams, |seams|), tail);
      OneMore(chunks, seams, parts, maxLen, remaining, None, Solid(tail));
      LastRound(text, maxLen, |chunks|);
      chunks, seams, parts := chunks + [remaining], seams + [None], parts + [Solid(tail)];
    } else {
      EmptyLeft(Before(seams, |seams|), tail);
      assert Joined(parts) + [] == Joined(parts);
    }
    LongChunks(text, maxLen, chunks, seams);
  }
}
