/** The UTF-8 decoder the virtual terminal reads runes with: sections 3 and 4 of RFC 3629,
    with the one-byte error result and the "not yet complete" test that
    internal/supervisor/vterm.go (lines 112-121) relies on. */
module Utf8 {

  type Byte = b: nat | b < 256

  type Rune = nat

  const RUNE_SELF: nat := 0x80
  const RUNE_ERROR: Rune := 0xfffd

  datatype Decoded = Decoded(rune: Rune, size: nat)

  const INVALID: Decoded := Decoded(RUNE_ERROR, 1)

  /** Length announced by a leading byte; 1 for ASCII and for bytes that lead nothing. */
  function SeqLength(b: Byte): (n: nat)
    ensures 1 <= n <= 4
  {
    if 0xc2 <= b <= 0xdf then 2
    else if 0xe0 <= b <= 0xef then 3
    else if 0xf0 <= b <= 0xf4 then 4
    else 1
  }

  /** Whether b may follow the leading byte, excluding overlong forms, surrogates and values above U+10FFFF. */
  predicate SecondOk(lead: Byte, b: Byte) {
    if lead == 0xe0 then 0xa0 <= b <= 0xbf
    else if lead == 0xed then 0x80 <= b <= 0x9f
    else if lead == 0xf0 then 0x90 <= b <= 0xbf
    else if lead == 0xf4 then 0x80 <= b <= 0x8f
    else 0x80 <= b <= 0xbf
  }

  predicate TailOk(b: Byte) {
    0x80 <= b <= 0xbf
  }

  /** Shifts a continuation byte's six bits in below hi. */
  function ShiftIn(hi: nat, b: Byte): (r: Rune)
    requires TailOk(b)
    ensures r / 64 == hi && r % 64 == b - 0x80
  {
    var low: nat := b - 0x80;
    hi * 64 + low
  }

  function DecodeRune(p: seq<Byte>): (d: Decoded)
    requires |p| > 0
    ensures 1 <= d.size <= |p| && d.size <= 4
  {
    var n := SeqLength(p[0]);
    if n == 1 then (if p[0] < RUNE_SELF then Decoded(p[0], 1) else INVALID)
    else if |p| < n || !SecondOk(p[0], p[1]) then INVALID
    else if n == 2 then Decoded(ShiftIn(p[0] - 0xc0, p[1]), 2)
    else if !TailOk(p[2]) then INVALID
    else if n == 3 then Decoded(ShiftIn(ShiftIn(p[0] - 0xe0, p[1]), p[2]), 3)
    else if !TailOk(p[3]) then INVALID
    else Decoded(ShiftIn(ShiftIn(ShiftIn(p[0] - 0xf0, p[1]), p[2]), p[3]), 4)
  }

  /** False exactly when p could still grow into a rune. */
  predicate FullRune(p: seq<Byte>) {
    |p| > 0 &&
    (|p| >= SeqLength(p[0]) ||
     (|p| > 1 && !SecondOk(p[0], p[1])) ||
     (|p| > 2 && !TailOk(p[2])))
  }

  /** The condition under which a chunk's tail is kept for the next write. */
  predicate Incomplete(p: seq<Byte>)
    requires |p| > 0
  {
    DecodeRune(p) == INVALID && !FullRune(p)
  }

  /** Section 3 of RFC 3629: the encoding of one Unicode scalar value. */
  predicate Scalar(r: Rune) {
    r <= 0x10ffff && !(0xd800 <= r <= 0xdfff)
  }

  function Encode(r: Rune): (p: seq<Byte>)
    requires Scalar(r)
    ensures 1 <= |p| <= 4
  {
    if r < 0x80 then [r]
    else if r < 0x800 then [0xc0 + r / 64, 0x80 + r % 64]
    else if r < 0x10000 then [0xe0 + r / 64 / 64, 0x80 + r / 64 % 64, 0x80 + r % 64]
    else [0xf0 + r / 64 / 64 / 64, 0x80 + r / 64 / 64 % 64, 0x80 + r / 64 % 64, 0x80 + r % 64]
  }

  /** What follows a decided prefix never changes how that prefix decodes. */
  lemma DecodeStable(x: seq<Byte>, y: seq<Byte>)
    requires |x| > 0 && !Incomplete(x)
    ensures DecodeRune(x + y) == DecodeRune(x) && !Incomplete(x + y)
  {
    assert (x + y)[0] == x[0];
    assert |x| > 1 ==> (x + y)[1] == x[1];
    assert |x| > 2 ==> (x + y)[2] == x[2];
    assert |x| > 3 ==> (x + y)[3] == x[3];
  }

  /** At most three bytes are ever held back. */
  lemma IncompleteIsShort(x: seq<Byte>)
    requires |x| > 0 && Incomplete(x)
    ensures |x| <= 3
  {
  }

  /** A rune followed by anything decodes back to itself, at its encoded length. */
  lemma DecodeEncode(r: Rune, rest: seq<Byte>)
    requires Scalar(r)
    ensures DecodeRune(Encode(r) + rest) == Decoded(r, |Encode(r)|)
  {
    var p := Encode(r) + rest;
    assert forall i :: 0 <= i < |Encode(r)| ==> p[i] == Encode(r)[i];
    DigitsRejoin(r);
    DigitsRejoin(r / 64);
    DigitsRejoin(r / 64 / 64);
  }

  lemma DigitsRejoin(r: Rune)
    ensures ShiftIn(r / 64, 0x80 + r % 64) == r
  {
  }

  /** The examples in section 7 of RFC 3629. */
  lemma StandardExamples()
    ensures Encode(0x41) + Encode(0x2262) + Encode(0x391) + Encode(0x2e) == [0x41, 0xe2, 0x89, 0xa2, 0xce, 0x91, 0x2e]
    ensures Encode(0xd55c) + Encode(0xad6d) + Encode(0xc5b4) == [0xed, 0x95, 0x9c, 0xea, 0xb5, 0xad, 0xec, 0x96, 0xb4]
    ensures Encode(0xfeff) + Encode(0x233b4) == [0xef, 0xbb, 0xbf, 0xf0, 0xa3, 0x8e, 0xb4]
  {
  }

  /** Every accepted prefix is the encoding of the rune reported: no overlong form, no surrogate. */
  lemma EncodeDecode(p: seq<Byte>)
    requires |p| > 0 && DecodeRune(p) != INVALID
    ensures var d := DecodeRune(p); Scalar(d.rune) && p[..d.size] == Encode(d.rune)
  {
    var d := DecodeRune(p);
    if d.size == 2 {
      assert d.rune / 64 == p[0] - 0xc0;
    } else if d.size == 3 {
      assert d.rune / 64 / 64 == p[0] - 0xe0;
    } else if d.size == 4 {
      assert d.rune / 64 / 64 / 64 == p[0] - 0xf0;
    }
  }
}
