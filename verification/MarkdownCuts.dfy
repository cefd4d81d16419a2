/** Where a cut falls and what it leaves out, said of the text alone. */
module MarkdownCuts {
  import opened Options
  import opened Utf8
  import opened MarkdownFences
  import opened MarkdownSplit

  // ---- Fences ----------------------------------------------------------------------------------------------

  predicate AtLineStart(text: Text, i: nat)
    requires i <= |text|
  {
    i == 0 || IsLineEnd(text[i - 1])
  }

  /** A fence may end at `e`: white space up to there from where the tag ends, and a line end or the end of the text. */
  ghost predicate EndsFence(text: Text, w: nat, e: nat) {
    && w <= e <= |text|
    && (forall k :: w <= k < e ==> IsSpace(text[k]))
    && (e == |text| || IsLineEnd(text[e]))
  }

  /** `[i, w)` is three ticks and a word that cannot be longer. */
  ghost predicate TagEnds(text: Text, i: nat, w: nat) {
    && i + 3 <= w <= |text| && text[i..i + 3] == [96, 96, 96]
    && (forall k :: i + 3 <= k < w ==> IsWord(text[k])) && (w < |text| ==> !IsWord(text[w]))
  }

  lemma FenceFound(text: Text, i: nat, w: nat, e: nat)
    requires i <= |text| && AtLineStart(text, i) && TagEnds(text, i, w) && EndsFence(text, w, e)
    ensures FenceAt(text, i).Some?
  {
    WordEndIs(text, i + 3, w);
    var s := SpaceEnd(text, w);
    assert text[i..i + 3] == TICKS;
    if s < |text| {
      assert e < s;
      var p := LastLineEnd(text, w, s);
      assert IsLineEnd(text[e]);
    }
  }

  lemma FenceReaches(text: Text, i: nat)
    requires i <= |text| && FenceAt(text, i).Some?
    ensures var (f, w) := (FenceAt(text, i).value, WordEnd(text, i + 3));
      && AtLineStart(text, i) && TagEnds(text, i, w) && f.lang == text[i + 3..w] && EndsFence(text, w, f.end)
      && forall e: nat :: EndsFence(text, w, e) ==> e <= f.end
  {
    var w := WordEnd(text, i + 3);
    var s := SpaceEnd(text, w);
    if s < |text| {
      var p := LastLineEnd(text, w, s).value;
      forall e: nat | EndsFence(text, w, e) ensures e <= p {
        assert e < s;
      }
    }
  }

  /** There is a fence at `i` exactly when a line starts there with ticks, a word and white space to a line's end. */
  lemma FenceIs(text: Text, i: nat)
    requires i <= |text|
    ensures var f := FenceAt(text, i);
      && (f.Some? <==> AtLineStart(text, i) && exists w: nat, e: nat :: TagEnds(text, i, w) && EndsFence(text, w, e))
      && (f.Some? ==>
            exists w: nat ::
              && TagEnds(text, i, w) && f.value.lang == text[i + 3..w] && EndsFence(text, w, f.value.end)
              && forall e: nat :: EndsFence(text, w, e) ==> e <= f.value.end)
  {
    var f := FenceAt(text, i);
    if w: nat, e: nat :| AtLineStart(text, i) && TagEnds(text, i, w) && EndsFence(text, w, e) {
      FenceFound(text, i, w, e);
    }
    if f.Some? {
      var w := WordEnd(text, i + 3);
      FenceReaches(text, i);
    }
  }

  /** The fences of a text one after the other, each looked for behind the one before. */
  function Fences(text: Text, i: nat): seq<Fence>
    requires i <= |text|
    decreases |text| - i
  {
    var f := NextFence(text, i);
    if f.None? then [] else [f.value] + Fences(text, f.value.end)
  }

  /** The blocks are the fences in pairs, the last one open to the end of the text when it has no partner. */
  ghost predicate Paired(fences: seq<Fence>, blocks: seq<Block>, end: nat) {
    && |blocks| == (|fences| + 1) / 2
    && forall k :: 0 <= k < |blocks| ==>
         && blocks[k].open == fences[2 * k].open && blocks[k].lang == fences[2 * k].lang
         && blocks[k].close == if 2 * k + 1 < |fences| then fences[2 * k + 1].end else end
  }

  lemma OnePairMore(f: Fence, g: Fence, fences: seq<Fence>, blocks: seq<Block>, end: nat)
    requires Paired(fences, blocks, end)
    ensures Paired([f, g] + fences, [Block(f.open, g.end, f.lang)] + blocks, end)
  {
    var (all, more) := ([f, g] + fences, [Block(f.open, g.end, f.lang)] + blocks);
    forall k | 0 <= k < |more|
      ensures more[k].open == all[2 * k].open && more[k].lang == all[2 * k].lang
      ensures more[k].close == if 2 * k + 1 < |all| then all[2 * k + 1].end else end
    {
      if k > 0 {
        assert more[k] == blocks[k - 1] && all[2 * k] == fences[2 * (k - 1)];
        assert 2 * k + 1 < |all| ==> all[2 * k + 1] == fences[2 * (k - 1) + 1];
      }
    }
  }

  lemma NextOf(text: Text, i: nat)
    requires i <= |text|
    ensures var f := NextFence(text, i);
      && Fences(text, i) == (if f.None? then [] else [f.value] + Fences(text, f.value.end))
      && Blocks(text, i) == (if f.None? then [] else BlocksFrom(text, f.value))
  {
    hide NextFence, BlocksFrom;
  }

  lemma PairOf(text: Text, f: Fence)
    requires f.open + 3 <= f.end <= |text|
    ensures var g := NextFence(text, f.end);
      BlocksFrom(text, f)
      == if g.None? then [Block(f.open, |text|, f.lang)]
         else [Block(f.open, g.value.end, f.lang)] + Blocks(text, g.value.end)
  {
    hide NextFence, Blocks;
  }

  lemma {:induction false} BlocksArePairs(text: Text, i: nat)
    requires i <= |text|
    ensures Paired(Fences(text, i), Blocks(text, i), |text|)
    decreases |text| - i
  {
    hide Fences, Blocks, BlocksFrom, NextFence;
    var f := NextFence(text, i);
    NextOf(text, i);
    if f.Some? {
      var g := NextFence(text, f.value.end);
      NextOf(text, f.value.end);
      PairOf(text, f.value);
      if g.Some? {
        assert [f.value] + ([g.value] + Fences(text, g.value.end)) == [f.value, g.value] + Fences(text, g.value.end);
        BlocksArePairs(text, g.value.end);
        OnePairMore(f.value, g.value, Fences(text, g.value.end), Blocks(text, g.value.end), |text|);
      }
    }
  }

  // ---- Where a cut falls -----------------------------------------------------------------------------------

  predicate BlankLineAt(text: Text, q: nat) { q + 2 <= |text| && text[q] == 10 && text[q + 1] == 10 }

  predicate LineEndAt(text: Text, q: nat) { q < |text| && text[q] == 10 }

  /** A place for a cut: not beyond the limit, and not within its first three tenths. */
  predicate InReach(q: nat, maxLen: nat) { q <= maxLen && 10 * q >= 3 * maxLen }

  /** The last blank line in reach; else the last line end in reach; else the limit. */
  ghost predicate BestCut(text: Text, maxLen: nat, idx: nat) {
    if exists q: nat :: InReach(q, maxLen) && BlankLineAt(text, q) then
      InReach(idx, maxLen) && BlankLineAt(text, idx) && forall q: nat :: idx < q <= maxLen ==> !BlankLineAt(text, q)
    else if exists q: nat :: InReach(q, maxLen) && LineEndAt(text, q) then
      InReach(idx, maxLen) && LineEndAt(text, idx) && forall q: nat :: idx < q <= maxLen ==> !LineEndAt(text, q)
    else idx == maxLen
  }

  lemma BestCutIsOne(text: Text, maxLen: nat, a: nat, b: nat)
    requires BestCut(text, maxLen, a) && BestCut(text, maxLen, b)
    ensures a == b
  {
  }

  lemma SplitPointIsBest(text: Text, maxLen: nat)
    ensures BestCut(text, maxLen, SplitPoint(text, maxLen))
  {
    var double, newline := LastDouble(text, maxLen), LastNewline(text, maxLen);
    assert forall q: nat :: InReach(q, maxLen) && BlankLineAt(text, q) ==> q <= double;
    assert forall q: nat :: InReach(q, maxLen) && LineEndAt(text, q) ==> q <= newline;
    assert double >= 0 ==> BlankLineAt(text, double);
    assert newline >= 0 ==> LineEndAt(text, newline);
    hide LastDouble, LastNewline;
  }

  /** A line end at which to retreat in front of a block that opens at `open`: the last one, if it lies far enough. */
  ghost predicate Retreat(text: Text, maxLen: nat, open: nat, at: nat) {
    if exists q: nat :: q <= open && 10 * q > 3 * maxLen && LineEndAt(text, q) then
      && at <= open && 10 * at > 3 * maxLen && LineEndAt(text, at)
      && forall q: nat :: at < q <= open ==> !LineEndAt(text, q)
    else at == open
  }

  lemma RetreatIs(text: Text, maxLen: nat, open: nat)
    requires 10 * open > 3 * maxLen
    ensures Retreat(text, maxLen, open, RetreatPoint(text, open, maxLen))
  {
    var newline := LastNewline(text, open);
    assert newline >= 0 ==> LineEndAt(text, newline);
    hide LastNewline;
  }

  lemma CutOfIs(text: Text, maxLen: nat)
    requires |text| > maxLen
    ensures var (idx, block) := (SplitPoint(text, maxLen), Containing(SplitPoint(text, maxLen), Blocks(text, 0)));
      (block.Some? ==> block.value.open <= |text|) && CutOf(text, maxLen) == CutAt(text, maxLen, idx, block)
  {
    hide CutAt, Blocks, SplitPoint, BlockOk;
    var block := Containing(SplitPoint(text, maxLen), Blocks(text, 0));
    if block.Some? {
      BlocksOk(text, 0, block.value);
      OpenBefore(text, block.value);
    }
  }

  /**
   * Where a text is cut. Outside a block: at the best place. Inside one that opens behind the first three tenths
   * of the limit: in front of it. Inside one that opens earlier: at the best place, and the block is closed.
   */
  lemma CutFalls(text: Text, maxLen: nat, idx: nat)
    requires |text| > maxLen && BestCut(text, maxLen, idx)
    ensures var (c, b) := (CutOf(text, maxLen), Containing(idx, Blocks(text, 0)));
      && (b.None? ==> c.at == idx && c.seam.None?)
      && (b.Some? && 10 * b.value.open > 3 * maxLen ==>
            Retreat(text, maxLen, b.value.open, c.at) && c.seam.None?)
      && (b.Some? && 10 * b.value.open <= 3 * maxLen ==> c.at == idx && c.seam == Some(b.value.lang))
  {
    SplitPointIsBest(text, maxLen);
    BestCutIsOne(text, maxLen, idx, SplitPoint(text, maxLen));
    CutOfIs(text, maxLen);
    hide CutOf, Blocks, SkipNewlines, TrimEnd, Reopener, SplitPoint, BestCut, Retreat, RetreatPoint;
    var block := Containing(idx, Blocks(text, 0));
    if block.Some? && 10 * block.value.open > 3 * maxLen {
      RetreatIs(text, maxLen, block.value.open);
    }
  }

  // ---- What a cut leaves out -------------------------------------------------------------------------------

  /** The white space at the end is gone, and nothing else. */
  ghost predicate Trimmed(text: Text, r: Text) {
    && r <= text && (forall k :: |r| <= k < |text| ==> IsSpace(text[k]))
    && (r != [] ==> !IsSpace(r[|r| - 1]))
  }

  /** Line feeds in front are gone, all of them or at most one, and nothing else. */
  ghost predicate Skipped(text: Text, one: bool, r: Text) {
    exists n: nat ::
      && n <= |text| && r == text[n..] && (forall k :: 0 <= k < n ==> text[k] == 10)
      && (if one then n == (if text != [] && text[0] == 10 then 1 else 0) else r != [] ==> r[0] != 10)
  }

  lemma {:induction false} SkippedIs(text: Text, one: bool)
    ensures Skipped(text, one, SkipNewlines(text, one))
    ensures !one && Newlines(text, one) < |text| ==> text[Newlines(text, one)] != 10
    decreases |text|
  {
    if text != [] && text[0] == 10 && !one {
      SkippedIs(text[1..], false);
    }
    var n := Newlines(text, one);
    assert SkipNewlines(text, one) == text[n..];
  }

  /**
   * The chunk is the text in front of the cut without its trailing white space; what remains is the text behind
   * it without the line feeds in front. A block that is closed gets a closing fence at the end of the chunk, and
   * is opened again with its tag, directly in front of what remains of it.
   */
  ghost predicate LeavesOut(text: Text, c: Cut) {
    && c.at <= |text|
    && (c.seam.None? ==> Trimmed(text[..c.at], c.chunk) && Skipped(text[c.at..], false, c.rest))
    && (c.seam.Some? ==>
          exists r, left ::
            && Trimmed(text[..c.at], r) && c.chunk == r + [10, 96, 96, 96]
            && Skipped(text[c.at..], true, left) && c.rest == [96, 96, 96] + c.seam.value + [10] + left)
  }

  lemma PlainLeavesOut(text: Text, at: nat)
    requires at <= |text|
    ensures LeavesOut(text, Cut(at, TrimEnd(text[..at]), SkipNewlines(text[at..], false), None))
  {
    SkippedIs(text[at..], false);
    assert Trimmed(text[..at], TrimEnd(text[..at]));
    hide TrimEnd, SkipNewlines, Skipped, Trimmed;
  }

  lemma ClosedLeavesOut(text: Text, at: nat, lang: Text)
    requires at <= |text|
    ensures LeavesOut(text, Cut(at, TrimEnd(text[..at]) + [NL] + TICKS,
                                Reopener(lang) + SkipNewlines(text[at..], true), Some(lang)))
  {
    SkippedIs(text[at..], true);
    var r, left := TrimEnd(text[..at]), SkipNewlines(text[at..], true);
    assert Trimmed(text[..at], r);
    hide TrimEnd, SkipNewlines, Skipped, Trimmed;
    assert r + [NL] + TICKS == r + [10, 96, 96, 96];
    assert Reopener(lang) + left == [96, 96, 96] + lang + [10] + left;
  }

  lemma CutLeavesOut(text: Text, maxLen: nat)
    requires |text| > maxLen
    ensures LeavesOut(text, CutOf(text, maxLen))
  {
    CutOfIs(text, maxLen);
    hide CutOf, Blocks, SplitPoint, LeavesOut, TrimEnd, SkipNewlines, Reopener, RetreatPoint;
    var idx := SplitPoint(text, maxLen);
    var block := Containing(idx, Blocks(text, 0));
    if block.Some? {
      ClosedLeavesOut(text, idx, block.value.lang);
      PlainLeavesOut(text, RetreatPoint(text, block.value.open, maxLen));
    } else {
      PlainLeavesOut(text, idx);
    }
  }
}
