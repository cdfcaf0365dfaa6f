/** Input that leaves no trace: broken encodings, strings of any length, sequences cancelled or too long, and
    character sets (internal/supervisor/vterm.go, lines 107-156, 302-360, 535-562). */
module TermParser {
  import opened Utf8
  import opened TermModel
  import opened TermChunks
  import opened TermCsi
  import opened TermEffects

  // ---- runes ----

  /** A rune that decodes is put on the screen; a byte that decodes to nothing and a control character of two
      bytes are passed over. */
  lemma RuneEffect(t: Term, data: seq<Byte>)
    requires Ready(t) && data != [] && data[0] >= RUNE_SELF && !MustWait(t, data)
    ensures var d := DecodeRune(data);
            Write(t, data) ==
            Write(if d == INVALID || 0x80 <= d.rune <= 0x9f then t
                  else WithCurrent(t, Put(Current(t), t.cols, t.rows, d.rune)), data[d.size..])
  {
    var d := DecodeRune(data);
    var t' := if d == INVALID || 0x80 <= d.rune <= 0x9f then t
              else WithCurrent(t, Put(Current(t), t.cols, t.rows, d.rune));
    assert t.utf8Pending + data == data && t.(utf8Pending := []) == t;
    assert t'.utf8Pending + data[d.size..] == data[d.size..] && t'.(utf8Pending := []) == t';
    assert Consume(t, data) == t' && UnitSize(t, data) == d.size;
    assert Write(t, data) == Run(t, data) == Run(t', data[d.size..]);
  }

  // ---- what is swallowed ----

  /** The same terminal apart from where its parser stands. */
  predicate OnlyParser(t: Term, u: Term) {
    && u.cols == t.cols && u.rows == t.rows && u.primary == t.primary && u.alternate == t.alternate
    && u.useAlternate == t.useAlternate && u.utf8Pending == t.utf8Pending
  }

  /** Both screens are as they were, but that a pending joiner is forgotten. */
  predicate ScreensKept(t: Term, t': Term) {
    Current(t') == Current(t).(joinNext := false) && Other(t') == Other(t) && t'.useAlternate == t.useAlternate
  }

  /** What ESC does to the screens. */
  function Escaped(t: Term): Term {
    WithCurrent(t, Current(t).(joinNext := false))
  }

  lemma EscapedKeeps(t: Term, u: Term)
    requires OnlyParser(Escaped(t), u)
    ensures ScreensKept(t, u)
  {
  }

  lemma EscapeEnters(t: Term, b: Byte, rest: seq<Byte>) returns (u: Term)
    requires Ready(t)
    ensures TermShape(u) && u.state == Escape && u.sequenceBytes == 0 && OnlyParser(Escaped(t), u)
    ensures Write(t, [ESCAPE, b] + rest) == Run(Consume(u, [b]), rest)
  {
    var data := [ESCAPE, b] + rest;
    assert t.utf8Pending + data == data && t.(utf8Pending := []) == t;
    assert data == [ESCAPE] + ([b] + rest);
    u := Consume(t, [ESCAPE]);
    RunByte(t, ESCAPE, [b] + rest);
    RunByte(u, b, rest);
  }

  /** The states of a parser inside one kind of string or sequence, given up as too long or not. */
  function Inside(kind: Parser): set<Parser> {
    {kind, Overlong(kind)}
  }

  /** Bytes that go on with a string or, in a control sequence, with its parameters. */
  predicate GoesOn(kind: Parser, b: Byte) {
    match kind
    case Osc => b != 0x07 && b != 0x18 && b != 0x1a && b != ESCAPE
    case Dcs => b != 0x18 && b != 0x1a && b != ESCAPE
    case _ => 0x20 <= b <= 0x3f
  }

  predicate Held(kind: Parser) {
    kind == Osc || kind == Dcs || kind == Csi
  }

  lemma InsideByte(u: Term, kind: Parser, b: Byte)
    requires TermShape(u) && Held(kind) && u.state in Inside(kind) && GoesOn(kind, b)
    ensures var v := Consume(u, [b]); v.state in Inside(kind) && OnlyParser(u, v)
  {
    match kind
    case Osc =>
    case Dcs =>
    case _ =>
  }

  /** However long it gets, a string or a parameter list only moves the parser. */
  lemma {:induction false} InsideRuns(u: Term, kind: Parser, payload: seq<Byte>, rest: seq<Byte>) returns (v: Term)
    requires TermShape(u) && Held(kind) && u.state in Inside(kind)
    requires forall i :: 0 <= i < |payload| ==> GoesOn(kind, payload[i])
    ensures TermShape(v) && v.state in Inside(kind) && OnlyParser(u, v) && Run(u, payload + rest) == Run(v, rest)
    decreases |payload|
  {
    if payload == [] {
      v := u;
      assert payload + rest == rest;
    } else {
      var b, more := payload[0], payload[1..];
      assert payload + rest == [b] + (more + rest);
      InsideByte(u, kind, b);
      RunByte(u, b, more + rest);
      v := InsideRuns(Consume(u, [b]), kind, more, rest);
    }
  }

  function Opener(kind: Parser, b: Byte): bool {
    match kind
    case Osc => b as char == ']'
    case Dcs => b as char in "P^_"
    case _ => b as char == '['
  }

  lemma Opened(u: Term, kind: Parser, b: Byte)
    requires TermShape(u) && u.state == Escape && u.sequenceBytes == 0 && Held(kind) && Opener(kind, b)
    ensures Consume(u, [b]).state == kind && OnlyParser(u, Consume(u, [b]))
  {
  }

  /** From the escape to the end of the payload. */
  lemma PayloadSwallowed(t: Term, kind: Parser, b: Byte, payload: seq<Byte>, rest: seq<Byte>) returns (v: Term)
    requires Ready(t) && Held(kind) && Opener(kind, b)
    requires forall i :: 0 <= i < |payload| ==> GoesOn(kind, payload[i])
    ensures TermShape(v) && v.state in Inside(kind) && OnlyParser(Escaped(t), v)
    ensures Write(t, [ESCAPE, b] + (payload + rest)) == Run(v, rest)
  {
    var u := EscapeEnters(t, b, payload + rest);
    Opened(u, kind, b);
    v := InsideRuns(Consume(u, [b]), kind, payload, rest);
  }

  lemma RunLast(u: Term, b: Byte)
    requires TermShape(u) && u.state != Ground
    ensures Run(u, [b]) == Consume(u, [b])
  {
    assert [b] + [] == [b];
    RunByte(u, b, []);
  }

  lemma RunLastTwo(u: Term, a: Byte, b: Byte)
    requires TermShape(u) && u.state != Ground && Consume(u, [a]).state != Ground
    ensures Run(u, [a, b]) == Consume(Consume(u, [a]), [b])
  {
    assert [a, b] == [a] + [b];
    RunByte(u, a, [b]);
    RunLast(Consume(u, [a]), b);
  }

  /** A title or any other operating system command, of any length, is swallowed up to its bell. */
  lemma CommandSwallowed(t: Term, payload: seq<Byte>)
    requires Ready(t) && forall i :: 0 <= i < |payload| ==> GoesOn(Osc, payload[i])
    ensures var t' := Write(t, [ESCAPE, ']' as Byte] + (payload + [0x07])); Ready(t') && ScreensKept(t, t')
  {
    var v := PayloadSwallowed(t, Osc, ']' as Byte, payload, [0x07]);
    RunLast(v, 0x07);
  }

  /** So is every string up to its terminator ESC \\. */
  lemma StringSwallowed(t: Term, kind: Parser, b: Byte, payload: seq<Byte>)
    requires Ready(t) && (kind == Osc || kind == Dcs) && Opener(kind, b)
    requires forall i :: 0 <= i < |payload| ==> GoesOn(kind, payload[i])
    ensures var t' := Write(t, [ESCAPE, b] + (payload + [ESCAPE, '\\' as Byte])); Ready(t') && ScreensKept(t, t')
  {
    var v := PayloadSwallowed(t, kind, b, payload, [ESCAPE, '\\' as Byte]);
    StringEnds(v, kind);
  }

  lemma StringEnds(v: Term, kind: Parser)
    requires TermShape(v) && (kind == Osc || kind == Dcs) && v.state in Inside(kind)
    ensures var t' := Run(v, [ESCAPE, '\\' as Byte]); t'.state == Ground && OnlyParser(v, t')
  {
    assert Consume(v, [ESCAPE]).state == StringEscape && OnlyParser(v, Consume(v, [ESCAPE]));
    RunLastTwo(v, ESCAPE, '\\' as Byte);
  }

  /** A string or sequence, of any length, is cancelled without effect by CAN or SUB. */
  lemma Cancelled(t: Term, kind: Parser, b: Byte, payload: seq<Byte>, cancel: Byte)
    requires Ready(t) && Held(kind) && Opener(kind, b) && cancel in {0x18, 0x1a}
    requires forall i :: 0 <= i < |payload| ==> GoesOn(kind, payload[i])
    ensures var t' := Write(t, [ESCAPE, b] + (payload + [cancel])); Ready(t') && ScreensKept(t, t')
  {
    var v := PayloadSwallowed(t, kind, b, payload, [cancel]);
    CancelByte(v, kind, cancel);
    RunLast(v, cancel);
  }

  lemma CancelByte(v: Term, kind: Parser, cancel: Byte)
    requires TermShape(v) && Held(kind) && v.state in Inside(kind) && cancel in {0x18, 0x1a}
    ensures Consume(v, [cancel]).state == Ground && OnlyParser(v, Consume(v, [cancel]))
  {
    assert v.state == kind || v.state == Overlong(kind);
  }

  /** A control sequence with 4096 parameter bytes or more has no effect; shorter ones are executed. */
  lemma OverlongDropped(t: Term, raw: seq<Byte>, final: char)
    requires Ready(t) && |raw| >= 4096 && '@' <= final <= '~'
    requires forall i :: 0 <= i < |raw| ==> 0x20 <= raw[i] <= 0x3f
    ensures var t' := Write(t, [ESCAPE, '[' as Byte] + (raw + [final as Byte])); Ready(t') && ScreensKept(t, t')
  {
    var u := EscapeEnters(t, '[' as Byte, raw + [final as Byte]);
    Opened(u, Csi, '[' as Byte);
    var v := Consume(u, ['[' as Byte]);
    var w := LongRuns(v, raw, [final as Byte]);
    LongEnds(w, final as Byte);
    RunLast(w, final as Byte);
  }

  lemma LongEnds(w: Term, b: Byte)
    requires TermShape(w) && 0x40 <= b <= 0x7e
    requires w.state == DiscardCsi || (w.state == Csi && w.sequenceBytes == SEQUENCE_LIMIT)
    ensures Consume(w, [b]).state == Ground && OnlyParser(w, Consume(w, [b]))
  {
  }

  /** The parser after so many parameter bytes. */
  predicate Counts(u: Term) {
    u.state == DiscardCsi || (u.state == Csi && u.sequenceBytes <= SEQUENCE_LIMIT)
  }

  lemma LongByte(u: Term, b: Byte)
    requires TermShape(u) && Counts(u) && 0x20 <= b <= 0x3f
    ensures var v := Consume(u, [b]);
            Counts(v) && OnlyParser(u, v) && (u.state == DiscardCsi ==> v.state == DiscardCsi)
            && (v.state == Csi ==> v.sequenceBytes == u.sequenceBytes + 1)
  {
  }

  lemma {:induction false} LongRuns(u: Term, raw: seq<Byte>, rest: seq<Byte>) returns (v: Term)
    requires TermShape(u) && Counts(u) && forall i :: 0 <= i < |raw| ==> 0x20 <= raw[i] <= 0x3f
    ensures TermShape(v) && Counts(v) && OnlyParser(u, v) && Run(u, raw + rest) == Run(v, rest)
    ensures u.state == DiscardCsi ==> v.state == DiscardCsi
    ensures v.state == Csi ==> v.sequenceBytes == u.sequenceBytes + |raw|
    decreases |raw|
  {
    if raw == [] {
      v := u;
      assert raw + rest == rest;
    } else {
      var b, more := raw[0], raw[1..];
      assert raw + rest == [b] + (more + rest);
      LongByte(u, b);
      RunByte(u, b, more + rest);
      v := LongRuns(Consume(u, [b]), more, rest);
    }
  }

  /** Choosing a character set, and its like, leave no trace. */
  lemma CharsetSwallowed(t: Term, b: Byte, c: Byte)
    requires Ready(t) && b as char in " ()*+-./#" && 0x30 <= c <= 0x7e
    ensures var t' := Write(t, [ESCAPE, b, c]); Ready(t') && ScreensKept(t, t')
  {
    assert [ESCAPE, b, c] == [ESCAPE, b] + [c];
    var u := EscapeEnters(t, b, [c]);
    var v := Consume(u, [b]);
    CharsetByte(u, b);
    CharsetEnds(v, c);
    RunLast(v, c);
  }

  lemma CharsetByte(u: Term, b: Byte)
    requires TermShape(u) && u.state == Escape && u.sequenceBytes == 0 && b as char in " ()*+-./#"
    ensures var v := Consume(u, [b]); v.state == EscapeIntermediate && v.sequenceBytes == 1 && OnlyParser(u, v)
  {
  }

  lemma CharsetEnds(v: Term, c: Byte)
    requires TermShape(v) && v.state == EscapeIntermediate && v.sequenceBytes == 1 && 0x30 <= c <= 0x7e
    ensures Consume(v, [c]).state == Ground && OnlyParser(v, Consume(v, [c]))
  {
  }

  /** Nor does any other byte after ESC. */
  lemma OtherEscapesIgnored(t: Term, b: Byte)
    requires Ready(t) && b as char !in "[]P^_ ()*+-./#c78DEM"
    ensures var t' := Write(t, [ESCAPE, b]); Ready(t') && ScreensKept(t, t')
  {
    assert [ESCAPE, b] + [] == [ESCAPE, b];
    var u := EscapeEnters(t, b, []);
    OtherByte(u, b);
  }

  lemma OtherByte(u: Term, b: Byte)
    requires TermShape(u) && u.state == Escape && u.sequenceBytes == 0 && b as char !in "[]P^_ ()*+-./#c78DEM"
    ensures Consume(u, [b]).state == Ground && OnlyParser(u, Consume(u, [b]))
  {
  }
}
