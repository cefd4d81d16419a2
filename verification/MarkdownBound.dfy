/** For which texts cutting ends: the exact bound on language tags; and how long chunks can be. */
module MarkdownBound {
  import opened Options
  import opened Utf8
  import opened MarkdownFences
  import opened MarkdownSplit

  // ---- Short language tags -------------------------------------------------------------------------------------

  /** No word right behind three ticks is longer than `n`; other words may be of any length. */
  ghost predicate ShortTags(text: Text, n: nat) {
    forall i: nat :: TicksAt(text, i) ==> WordEnd(text, i + 3) <= i + 3 + n
  }

  lemma ShortSuffix(text: Text, a: nat, n: nat)
    requires a <= |text| && ShortTags(text, n)
    ensures ShortTags(text[a..], n)
  {
    forall i: nat | TicksAt(text[a..], i) ensures WordEnd(text[a..], i + 3) <= i + 3 + n {
      assert text[a + i..a + i + 3] == text[a..][i..i + 3];
      assert TicksAt(text, a + i);
      var e := WordEnd(text, a + i + 3);
      WordEndIs(text[a..], i + 3, e - a);
    }
  }

  lemma TicksBehind(head: Text, text: Text, i: nat)
    requires |head| <= i && TicksAt(head + text, i)
    ensures TicksAt(text, i - |head|)
  {
    assert (head + text)[i..i + 3] == text[i - |head|..i - |head| + 3];
  }

  /** Reopening a block in front of some text makes no longer tags than the two have. */
  lemma ShortReopened(lang: Text, text: Text, n: nat)
    requires ShortTags(text, n) && |lang| <= n && IsTag(lang)
    ensures ShortTags(Reopener(lang) + text, n)
  {
    var all, m := Reopener(lang) + text, 4 + |lang|;
    ReopenedUnits(lang, text);
    hide Reopener;
    forall i: nat | TicksAt(all, i) ensures WordEnd(all, i + 3) <= i + 3 + n {
      TicksInReopened(lang, text, i);
      if i == 0 {
        WordEndIs(all, 3, m - 1);
      } else {
        TicksBehind(Reopener(lang), text, i);
        hide TicksAt;
        WordEndIs(all, i + 3, m + WordEnd(text, i + 3 - m));
      }
    }
  }

  /** The bound on language tags under which every cut leaves less than there was. */
  predicate Enough(n: nat, maxLen: nat) { 10 * (n + 3) < 3 * maxLen }

  lemma SuffixOfSuffix(text: Text, at: nat, j: nat)
    requires at + j <= |text|
    ensures text[at..][j..] == text[at + j..]
  {
  }

  /** Skipping newlines leaves a later suffix of the text. */
  lemma SkipSuffix(text: Text, at: nat, one: bool) returns (k: nat)
    requires at <= |text|
    ensures at <= k <= |text| && SkipNewlines(text[at..], one) == text[k..]
    ensures at < |text| && text[at] == NL ==> k > at
  {
    var n := Newlines(text[at..], one);
    k := at + n;
    SuffixOfSuffix(text, at, n);
    hide Newlines;
  }

  lemma LangShort(text: Text, b: Block, n: nat)
    requires ShortTags(text, n) && BlockOk(text, 0, b)
    ensures |b.lang| <= n && IsTag(b.lang)
  {
    assert TicksAt(text, b.open);
  }

  /** Reopening a block: the bound makes what is cut off longer than the reopening fence. */
  lemma SeamShrinks(text: Text, idx: nat, maxLen: nat, b: Block, n: nat)
    requires |text| > maxLen && Enough(n, maxLen) && ShortTags(text, n) && BlockOk(text, 0, b)
    requires idx <= maxLen && !TooEarly(idx, maxLen) && (idx == maxLen || text[idx] == NL)
    ensures var rest := Reopener(b.lang) + SkipNewlines(text[idx..], true);
      |rest| < |text| && ShortTags(rest, n) && |b.lang| <= n && idx >= n + 4
  {
    LangShort(text, b, n);
    var k := SkipSuffix(text, idx, true);
    ShortSuffix(text, k, n);
    ShortReopened(b.lang, text[k..], n);
    hide ShortTags, BlockOk, SkipNewlines;
  }

  lemma PlainShrinks(text: Text, at: nat, n: nat)
    requires 0 < at <= |text| && ShortTags(text, n)
    ensures |SkipNewlines(text[at..], false)| < |text| && ShortTags(SkipNewlines(text[at..], false), n)
  {
    var k := SkipSuffix(text, at, false);
    ShortSuffix(text, k, n);
    hide ShortTags, SkipNewlines;
  }

  /** Under the bound every cut leaves less, and takes more than a reopening fence in front of the text. */
  lemma CutShrinks(text: Text, maxLen: nat, n: nat)
    requires |text| > maxLen && Enough(n, maxLen) && ShortTags(text, n)
    ensures var c := CutOf(text, maxLen);
      && |c.rest| < |text| && ShortTags(c.rest, n) && (c.seam.Some? ==> |c.seam.value| <= n)
      && n + 4 <= c.at <= maxLen
  {
    hide ShortTags, Reopener, Blocks, BlockOk, WordEnd, SkipNewlines;
    var idx := SplitPoint(text, maxLen);
    var block := Containing(idx, Blocks(text, 0));
    if block.None? {
      PlainShrinks(text, idx, n);
    } else {
      BlocksOk(text, 0, block.value);
      OpenBefore(text, block.value);
      var open := block.value.open;
      if open > 0 && 10 * open > 3 * maxLen {
        PlainShrinks(text, RetreatPoint(text, open, maxLen), n);
      } else {
        SeamShrinks(text, idx, maxLen, block.value, n);
      }
    }
  }

  lemma {:induction false} ShortTagsEnd(text: Text, maxLen: nat, n: nat)
    requires Enough(n, maxLen) && ShortTags(text, n)
    ensures Ends(text, maxLen)
    decreases |text|
  {
    hide CutOf, ShortTags;
    if |text| <= maxLen {
      assert |Remaining(text, maxLen, 0)| <= maxLen;
    } else {
      CutShrinks(text, maxLen, n);
      var rest := CutOf(text, maxLen).rest;
      ShortTagsEnd(rest, maxLen, n);
      var k: nat :| |Remaining(rest, maxLen, k)| <= maxLen;
      OneRoundEarlier(text, maxLen, k);
      assert |Remaining(text, maxLen, k + 1)| <= maxLen;
    }
  }

  // ---- A text that stays the same ------------------------------------------------------------------------------

  function Repeat(c: CodeUnit, n: nat): (t: Text)
    ensures |t| == n && forall k :: 0 <= k < n ==> t[k] == c
  {
    seq(n, _ => c)
  }

  const LETTER: CodeUnit := 97
  const DASH: CodeUnit := 45

  /** An unclosed block with a tag of `m` letters and a single line of dashes. */
  function Stuck(m: nat, dashes: nat): Text { Reopener(Repeat(LETTER, m)) + Repeat(DASH, dashes) }

  function StuckUnit(m: nat, k: nat): CodeUnit {
    if k < 3 then TICK else if k < m + 3 then LETTER else if k == m + 3 then NL else DASH
  }

  lemma StuckUnits(m: nat, dashes: nat, k: nat)
    requires k < m + 4 + dashes
    ensures |Stuck(m, dashes)| == m + 4 + dashes
    ensures Stuck(m, dashes)[k] == StuckUnit(m, k)
  {
  }

  lemma StuckAll(m: nat, dashes: nat)
    ensures var t := Stuck(m, dashes);
      && |t| == m + 4 + dashes
      && forall k :: 0 <= k < |t| ==> t[k] == StuckUnit(m, k)
  {
    forall k | 0 <= k < m + 4 + dashes
      ensures Stuck(m, dashes)[k] == StuckUnit(m, k)
    {
      StuckUnits(m, dashes, k);
    }
  }

  lemma StuckShort(m: nat, dashes: nat)
    ensures ShortTags(Stuck(m, dashes), m)
  {
    var t := Stuck(m, dashes);
    StuckAll(m, dashes);
    hide Stuck;
    forall i | 0 <= i <= |t| ensures WordEnd(t, i) <= i + m {
      WordEndIs(t, i, if 3 <= i < m + 3 then m + 3 else i);
    }
  }

  lemma LastLineEndIs(text: Text, a: nat, b: nat, p: nat)
    requires a <= p < b <= |text| && IsLineEnd(text[p]) && forall k :: p < k < b ==> !IsLineEnd(text[k])
    ensures LastLineEnd(text, a, b) == Some(p)
  {
    var q := LastLineEnd(text, a, b);
    assert IsLineEnd(text[p]);
  }

  lemma SpaceEndIs(text: Text, i: nat, j: nat)
    requires i <= j < |text| && (forall k :: i <= k < j ==> IsSpace(text[k])) && !IsSpace(text[j])
    ensures SpaceEnd(text, i) == j
  {
    var e := SpaceEnd(text, i);
    assert e < |text| ==> !IsSpace(text[e]);
  }

  /** The only fence is the first line. */
  lemma StuckFence(m: nat, dashes: nat)
    requires dashes > 0
    ensures FenceAt(Stuck(m, dashes), 0) == Some(Fence(0, m + 3, Repeat(LETTER, m)))
  {
    var t := Stuck(m, dashes);
    StuckAll(m, dashes);
    hide Stuck;
    WordEndIs(t, 3, m + 3);
    SpaceEndIs(t, m + 3, m + 4);
    LastLineEndIs(t, m + 3, m + 4, m + 3);
    assert t[0..3] == TICKS;
    assert t[3..m + 3] == Repeat(LETTER, m);
  }

  lemma {:induction false} NoMoreFences(m: nat, dashes: nat, i: nat)
    requires m + 3 <= i <= m + 4 + dashes
    ensures |Stuck(m, dashes)| == m + 4 + dashes && NextFence(Stuck(m, dashes), i).None?
    decreases m + 4 + dashes - i
  {
    var t := Stuck(m, dashes);
    StuckAll(m, dashes);
    hide Stuck;
    assert i < |t| ==> t[i] != TICK;
    assert i + 3 <= |t| ==> t[i..i + 3][0] == t[i];
    if i < |t| {
      NoMoreFences(m, dashes, i + 1);
    }
  }

  lemma StuckBlocks(m: nat, dashes: nat)
    requires dashes > 0
    ensures Blocks(Stuck(m, dashes), 0) == [Block(0, m + 4 + dashes, Repeat(LETTER, m))]
  {
    StuckFence(m, dashes);
    NoMoreFences(m, dashes, m + 3);
    hide Stuck, FenceAt;
  }

  lemma StuckSplit(m: nat, maxLen: nat)
    requires m + 3 <= maxLen && !TooEarly(m + 3, maxLen)
    ensures SplitPoint(Stuck(m, maxLen), maxLen) == m + 3
  {
    var t := Stuck(m, maxLen);
    StuckAll(m, maxLen);
    hide Stuck;
    var double, newline := LastDouble(t, maxLen), LastNewline(t, maxLen);
    assert t[m + 3] == NL;
    assert forall q :: 0 <= q < |t| - 1 ==> !(t[q] == NL && t[q + 1] == NL);
  }

  lemma StuckRest(m: nat, dashes: nat)
    ensures |Stuck(m, dashes)| == m + 4 + dashes
    ensures Reopener(Repeat(LETTER, m)) + SkipNewlines(Stuck(m, dashes)[m + 3..], true) == Stuck(m, dashes)
  {
    StuckAll(m, dashes);
    var t := Stuck(m, dashes);
    assert t[m + 3..][1..] == Repeat(DASH, dashes);
  }

  /** When the tag line's end is no earlier than three tenths of the limit, the cut falls on it and changes nothing. */
  lemma StuckStays(m: nat, maxLen: nat)
    requires m + 3 <= maxLen && !TooEarly(m + 3, maxLen)
    ensures |Stuck(m, maxLen)| > maxLen && CutOf(Stuck(m, maxLen), maxLen).rest == Stuck(m, maxLen)
  {
    var t := Stuck(m, maxLen);
    StuckAll(m, maxLen);
    StuckBlocks(m, maxLen);
    StuckSplit(m, maxLen);
    var b := Block(0, m + 4 + maxLen, Repeat(LETTER, m));
    assert Containing(m + 3, [b]) == Some(b);
    StuckRest(m, maxLen);
    hide Stuck, Blocks, SkipNewlines, TrimEnd, Reopener, SplitPoint;
  }

  lemma {:induction false} StuckForever(text: Text, maxLen: nat, k: nat)
    requires |text| > maxLen && CutOf(text, maxLen).rest == text
    ensures Remaining(text, maxLen, k) == text
  {
    hide CutOf;
    if k > 0 {
      StuckForever(text, maxLen, k - 1);
    }
  }

  // ---- The bound --------------------------------------------------------------------------------------------------

  lemma LongerTags(text: Text, m: nat, n: nat)
    requires ShortTags(text, m) && m <= n
    ensures ShortTags(text, n)
  {
  }

  lemma StuckNeverEnds(m: nat, maxLen: nat)
    requires m + 3 <= maxLen && !TooEarly(m + 3, maxLen)
    ensures !Ends(Stuck(m, maxLen), maxLen)
  {
    StuckStays(m, maxLen);
    hide Stuck, CutOf, Remaining;
    forall k: nat ensures |Remaining(Stuck(m, maxLen), maxLen, k)| > maxLen {
      StuckForever(Stuck(m, maxLen), maxLen, k);
    }
  }

  /** Beyond the bound there is a text with no longer tags that is cut for ever. */
  lemma LongTagsNeedNotEnd(maxLen: nat, n: nat) returns (text: Text)
    requires !Enough(n, maxLen)
    ensures ShortTags(text, n) && !Ends(text, maxLen)
  {
    var m := if maxLen < 3 then 0 else if n + 3 <= maxLen then n else maxLen - 3;
    var dashes := if maxLen < 3 then 1 else maxLen;
    text := Stuck(m, dashes);
    StuckShort(m, dashes);
    if maxLen < 3 {
      LongTagNeverEnds(Repeat(LETTER, 0), Repeat(DASH, 1), maxLen);
    } else {
      StuckNeverEnds(m, maxLen);
    }
    hide Stuck, Ends, ShortTags;
    LongerTags(text, m, n);
  }

  /**
   * Every text in which no word behind three ticks is longer than `n` is split in finitely many rounds
   * exactly when `10 * (n + 3) < 3 * maxLen`.
   */
  lemma CuttingEnds(maxLen: nat, n: nat)
    ensures (forall text: Text :: ShortTags(text, n) ==> Ends(text, maxLen)) <==> Enough(n, maxLen)
  {
    hide ShortTags, Ends;
    if Enough(n, maxLen) {
      forall text: Text | ShortTags(text, n) ensures Ends(text, maxLen) {
        ShortTagsEnd(text, maxLen, n);
      }
    } else {
      var text := LongTagsNeedNotEnd(maxLen, n);
    }
  }

  // ---- How long a chunk can be --------------------------------------------------------------------------------------

  /** For every limit above ten some text has a first chunk four characters longer than the limit. */
  lemma LongestChunk(maxLen: nat)
    requires maxLen > 10
    ensures |Stuck(0, maxLen)| > maxLen && |CutOf(Stuck(0, maxLen), maxLen).chunk| == maxLen + 4
  {
    var t := Stuck(0, maxLen);
    StuckAll(0, maxLen);
    StuckBlocks(0, maxLen);
    hide Stuck, Blocks, SkipNewlines, Reopener;
    assert t[3] == NL;
    assert forall q :: 0 <= q < |t| - 1 ==> !(t[q] == NL && t[q + 1] == NL);
    assert SplitPoint(t, maxLen) == maxLen;
    var b := Block(0, 4 + maxLen, Repeat(LETTER, 0));
    assert Containing(maxLen, [b]) == Some(b);
    assert t[..maxLen][maxLen - 1] == DASH;
  }
}
