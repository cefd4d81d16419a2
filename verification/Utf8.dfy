/** UTF-16 strings, their UTF-8 encoding (section 3 of RFC 3629), and cutting text to a byte budget. */
module Utf8 {
  import opened Options

  /** A UTF-16 code unit: what a JavaScript string is made of. */
  type CodeUnit = u: int | 0 <= u < 0x1_0000 witness 0
  type Text = seq<CodeUnit>

  /** A Unicode scalar value: a code point that is not a surrogate. */
  type Scalar = s: int | (0 <= s < 0xD800) || (0xE000 <= s < 0x11_0000) witness 0
  type Byte = b: int | 0 <= b < 256 witness 0

  const REPLACEMENT: Scalar := 0xFFFD

  predicate IsHigh(u: CodeUnit) { 0xD800 <= u < 0xDC00 }
  predicate IsLow(u: CodeUnit) { 0xDC00 <= u < 0xE000 }
  predicate PairAt(text: Text) { |text| >= 2 && IsHigh(text[0]) && IsLow(text[1]) }

  /** A line terminator. */
  predicate IsLineEnd(c: CodeUnit) { c == 10 || c == 13 || c == 0x2028 || c == 0x2029 }

  /** White space as `trim` and `\s` see it. */
  predicate IsSpace(c: CodeUnit) {
    IsLineEnd(c) || c == 9 || c == 11 || c == 12 || c == 32 || c == 0xA0 || c == 0x1680 || 0x2000 <= c <= 0x200A
    || c == 0x202F || c == 0x205F || c == 0x3000 || c == 0xFEFF
  }

  /** The characters of a string; an unpaired surrogate counts as U+FFFD, as `Buffer.from` encodes it. */
  function Chars(text: Text): (cs: seq<Scalar>)
    ensures |cs| <= |text|
  {
    if text == [] then []
    else if PairAt(text) then [0x1_0000 + (text[0] - 0xD800) * 0x400 + (text[1] - 0xDC00)] + Chars(text[2..])
    else if IsHigh(text[0]) || IsLow(text[0]) then [REPLACEMENT] + Chars(text[1..])
    else [text[0]] + Chars(text[1..])
  }

  function UnitsOf(c: Scalar): (us: Text)
    ensures 1 <= |us| <= 2
  {
    if c < 0x1_0000 then [c] else [0xD800 + (c - 0x1_0000) / 0x400, 0xDC00 + (c - 0x1_0000) % 0x400]
  }

  /** The string made of some characters. */
  function Units(cs: seq<Scalar>): Text {
    if cs == [] then [] else UnitsOf(cs[0]) + Units(cs[1..])
  }

  /** A byte of the form 10xxxxxx: `(b & 0xc0) === 0x80`. */
  predicate IsContinuation(b: Byte) { 0x80 <= b < 0xC0 }

  function EncodeChar(c: Scalar): (bs: seq<Byte>)
    ensures 1 <= |bs| <= 4
    ensures !IsContinuation(bs[0])
    ensures forall i :: 1 <= i < |bs| ==> IsContinuation(bs[i])
  {
    if c < 0x80 then [c]
    else if c < 0x800 then [0xC0 + c / 64, 0x80 + c % 64]
    else if c < 0x1_0000 then [0xE0 + c / 64 / 64, 0x80 + c / 64 % 64, 0x80 + c % 64]
    else [0xF0 + c / 64 / 64 / 64, 0x80 + c / 64 / 64 % 64, 0x80 + c / 64 % 64, 0x80 + c % 64]
  }

  function Encode(cs: seq<Scalar>): seq<Byte> {
    if cs == [] then [] else EncodeChar(cs[0]) + Encode(cs[1..])
  }

  function Utf8Length(text: Text): nat { |Encode(Chars(text))| }

  /** A value followed by the six payload bits of each continuation byte. */
  function Join(value: int, rest: seq<int>): int
    decreases rest
  {
    if rest == [] then value else Join(value * 64 + (rest[0] - 0x80), rest[1..])
  }

  /** The marker bits of the first byte of a sequence of `width` bytes. */
  function LeadMark(width: nat): int { if width == 2 then 0xC0 else if width == 3 then 0xE0 else 0xF0 }

  function DecodeOne(bs: seq<Byte>): Option<Scalar>
    requires 1 <= |bs| <= 4
  {
    if exists i :: 1 <= i < |bs| && !IsContinuation(bs[i]) then None
    else
      var v := Join(if |bs| == 1 then bs[0] else bs[0] - LeadMark(|bs|), bs[1..]);
      if (0 <= v < 0xD800) || (0xE000 <= v < 0x11_0000) then Some(v) else None
  }

  function Width(lead: Byte): (n: nat)
    ensures n <= 4
  {
    if lead < 0x80 then 1
    else if lead < 0xC0 then 0
    else if lead < 0xE0 then 2
    else if lead < 0xF0 then 3
    else if lead < 0xF8 then 4
    else 0
  }

  /** Decoding of well-formed bytes (`toString('utf8')`); None when they are not an encoding. */
  function Decode(bs: seq<Byte>): (r: Option<seq<Scalar>>)
  {
    if bs == [] then Some([])
    else
      var n := Width(bs[0]);
      if n == 0 || n > |bs| then None
      else
        match (DecodeOne(bs[..n]), Decode(bs[n..]))
        case (Some(c), Some(rest)) => Some([c] + rest)
        case _ => None
  }

  // ---- Round trips -------------------------------------------------------------------------

  lemma DecodeEncodeChar(c: Scalar)
    ensures var bs := EncodeChar(c); Width(bs[0]) == |bs| && DecodeOne(bs) == Some(c)
  {
    var bs := EncodeChar(c);
    if c < 0x80 {
    } else if c < 0x800 {
      assert bs[1..] == [0x80 + c % 64];
      assert Join(c / 64, bs[1..]) == c;
    } else if c < 0x1_0000 {
      assert bs[1..] == [0x80 + c / 64 % 64, 0x80 + c % 64];
      assert bs[1..][1..] == [0x80 + c % 64];
      assert Join(c / 64 / 64, bs[1..]) == Join(c / 64, bs[1..][1..]) == c;
    } else {
      assert bs[1..] == [0x80 + c / 64 / 64 % 64, 0x80 + c / 64 % 64, 0x80 + c % 64];
      assert bs[1..][1..] == [0x80 + c / 64 % 64, 0x80 + c % 64];
      assert bs[1..][1..][1..] == [0x80 + c % 64];
      assert Join(c / 64 / 64 / 64, bs[1..]) == Join(c / 64 / 64, bs[1..][1..]) == Join(c / 64, bs[1..][1..][1..]) == c;
    }
  }

  /** Encoding loses nothing: decoding the bytes of any characters gives them back. */
  lemma {:induction false} DecodeEncode(cs: seq<Scalar>)
    ensures Decode(Encode(cs)) == Some(cs)
  {
    if cs != [] {
      var head, tail := EncodeChar(cs[0]), Encode(cs[1..]);
      DecodeEncodeChar(cs[0]);
      DecodeEncode(cs[1..]);
      var bs := Encode(cs);
      assert bs == head + tail && bs[0] == head[0];
      assert bs[..|head|] == head && bs[|head|..] == tail;
      assert [cs[0]] + cs[1..] == cs;
    }
  }

  /** Writing characters as UTF-16 and reading them back gives them back. */
  lemma {:induction false} CharsOfUnits(cs: seq<Scalar>)
    ensures Chars(Units(cs)) == cs
  {
    if cs != [] {
      CharsOfUnits(cs[1..]);
      var head := UnitsOf(cs[0]);
      var text := Units(cs);
      assert text[|head|..] == Units(cs[1..]);
      if cs[0] < 0x1_0000 {
        assert !PairAt(text);
      } else {
        assert PairAt(text);
      }
    }
  }

  lemma {:induction false} EncodeConcat(a: seq<Scalar>, b: seq<Scalar>)
    ensures Encode(a + b) == Encode(a) + Encode(b)
  {
    if a == [] {
      assert a + b == b;
    } else {
      EncodeConcat(a[1..], b);
      assert (a + b)[1..] == a[1..] + b;
    }
  }

  /** A UTF-16 unit takes at most three bytes. */
  lemma {:induction false} UnitsBoundBytes(text: Text)
    ensures Utf8Length(text) <= 3 * |text|
  {
    if text == [] {
    } else if PairAt(text) {
      UnitsBoundBytes(text[2..]);
    } else {
      UnitsBoundBytes(text[1..]);
    }
  }

  // ---- Cutting to a byte budget --------------------------------------------------------------

  /** How many leading characters fit in `limit` bytes. */
  function Fit(cs: seq<Scalar>, limit: nat): (k: nat)
    ensures k <= |cs|
  {
    if cs == [] || |EncodeChar(cs[0])| > limit then 0
    else 1 + Fit(cs[1..], limit - |EncodeChar(cs[0])|)
  }

  /**
   * `Fit` is the longest whole-character prefix within the budget; when something is left out,
   * at most three bytes of the budget go unused.
   */
  lemma {:induction false} FitIsLongest(cs: seq<Scalar>, limit: nat)
    ensures var k := Fit(cs, limit);
      && |Encode(cs[..k])| <= limit
      && (forall j :: k < j <= |cs| ==> |Encode(cs[..j])| > limit)
      && (k < |cs| ==> limit - |Encode(cs[..k])| <= 3)
  {
    var k := Fit(cs, limit);
    if cs == [] {
    } else if |EncodeChar(cs[0])| > limit {
      forall j | k < j <= |cs| ensures |Encode(cs[..j])| > limit {
        assert cs[..j][1..] == cs[1..j];
      }
    } else {
      FitIsLongest(cs[1..], limit - |EncodeChar(cs[0])|);
      assert cs[..k][1..] == cs[1..][..k - 1];
      forall j | k < j <= |cs| ensures |Encode(cs[..j])| > limit {
        assert cs[..j][1..] == cs[1..][..j - 1];
      }
    }
  }

  /** A position in an encoding is a character boundary exactly when the byte there is no continuation byte. */
  lemma {:induction false} BoundaryByte(cs: seq<Scalar>, k: nat)
    requires k < |cs|
    ensures |Encode(cs[..k])| < |Encode(cs)|
    ensures !IsContinuation(Encode(cs)[|Encode(cs[..k])|])
  {
    assert cs == cs[..k] + cs[k..];
    EncodeConcat(cs[..k], cs[k..]);
  }

  lemma {:induction false} InsideByte(cs: seq<Scalar>, k: nat, i: nat)
    requires k < |cs|
    requires |Encode(cs[..k])| < i < |Encode(cs[..k + 1])|
    ensures i < |Encode(cs)| && IsContinuation(Encode(cs)[i])
  {
    assert cs == cs[..k] + cs[k..];
    EncodeConcat(cs[..k], cs[k..]);
    assert cs[..k + 1] == cs[..k] + [cs[k]];
    EncodeConcat(cs[..k], [cs[k]]);
    assert Encode([cs[k]]) == EncodeChar(cs[k]) + Encode([cs[k]][1..]);
  }

  /** The longest whole-character prefix of `text` that fits, as the string it decodes to. */
  function Kept(text: Text, maxBytes: nat): Text {
    var cs := Chars(text);
    Units(cs[..Fit(cs, maxBytes)])
  }

  /** The backing-off loop over bytes finds exactly that prefix. */
  method CutUtf8(text: Text, maxBytes: nat) returns (kept: Text)
    ensures kept == Kept(text, maxBytes)
  {
    var cs := Chars(text);
    var bytes := Encode(cs);
    var k := Fit(cs, maxBytes);
    ghost var stop := |Encode(cs[..k])|;
    FitIsLongest(cs, maxBytes);
    assert cs[..|cs|] == cs;
    if k < |cs| {
      BoundaryByte(cs, k);
      assert |Encode(cs[..k + 1])| > maxBytes;
    }
    var end := if maxBytes < |bytes| then maxBytes else |bytes|;
    while end > 0 && end < |bytes| && IsContinuation(bytes[end])
      invariant stop <= end <= |bytes|
      invariant k == |cs| ==> end == |bytes|
      invariant k < |cs| ==> end < |Encode(cs[..k + 1])|
    {
      end := end - 1;
    }
    if k < |cs| && end > stop {
      InsideByte(cs, k, end);
    }
    assert cs == cs[..k] + cs[k..];
    EncodeConcat(cs[..k], cs[k..]);
    assert bytes[..end] == Encode(cs[..k]);
    DecodeEncode(cs[..k]);
    var decoded := Decode(bytes[..end]);
    kept := Units(decoded.value);
  }
}
