/** The pending wrap and the last column: which input leaves a wrap pending elsewhere
    (internal/supervisor/vterm.go, lines 163-187, 302-336, 392-395, 535-562). */
module TermWrap {
  import opened Utf8
  import opened CsiParams
  import opened TermModel
  import opened TermChunks
  import opened TermText
  import opened TermCsi

  /** A wrap is pending in the last column only. */
  predicate WrapOk(s: Screen, cols: int) {
    s.pendingWrap ==> s.col == cols - 1
  }

  predicate WrapsOk(t: Term) {
    WrapOk(t.primary, t.cols) && WrapOk(t.alternate, t.cols)
  }

  // ---- the two guards ----

  /** The byte is taken as the one after ESC. */
  predicate AfterEscape(t: Term, b: Byte) {
    && t.sequenceBytes < SEQUENCE_LIMIT
    && (t.state == Escape || (t.state == StringEscape && b as char != '\\' && b != ESCAPE))
  }

  /** The first screen-switching mode of a parameter list, or zero. */
  function FirstMode(params: seq<nat>): nat {
    if params == [] then 0
    else if params[0] in {47, 1047, 1049} then params[0]
    else FirstMode(params[1..])
  }

  /** ESC E on a screen with a wrap pending. */
  predicate NextLineLoses(t: Term, b: Byte) {
    AfterEscape(t, b) && b as char == 'E' && Current(t).pendingWrap
  }

  /** Leaving the alternate screen by mode 1049, with a wrap pending on the primary screen and its
      cursor saved elsewhere than in the last column. */
  predicate RestoreLoses(t: Term, b: Byte) {
    && t.state == Csi && t.sequenceBytes < SEQUENCE_LIMIT && b as char == 'l'
    && |t.sequence| > 0 && t.sequence[0] as char == '?' && FirstMode(Params(t.sequence[1..])) == 1049
    && t.useAlternate && t.primary.pendingWrap && t.primary.savedCol != t.cols - 1
  }

  predicate LosesWrap(t: Term, b: Byte) {
    t.state != Ground && t.cols >= 2 && (NextLineLoses(t, b) || RestoreLoses(t, b))
  }

  // ---- screens ----

  lemma LineFeedWrap(s: Screen, cols: int, rows: int)
    requires Shape(s, cols, rows)
    ensures LineFeed(s, cols, rows).col == s.col && LineFeed(s, cols, rows).pendingWrap == s.pendingWrap
    ensures ReverseIndex(s, cols, rows).col == s.col && ReverseIndex(s, cols, rows).pendingWrap == s.pendingWrap
  {
  }

  lemma PutWrap(s: Screen, cols: int, rows: int, ch: Rune)
    requires Shape(s, cols, rows) && WrapOk(s, cols)
    ensures WrapOk(Put(s, cols, rows, ch), cols)
  {
    if RuneWidth(ch) != 0 && !s.joinNext {
      SettleWrap(s, cols, rows, CellsTaken(ch, cols));
    }
  }

  lemma SettleWrap(s: Screen, cols: int, rows: int, w: nat)
    requires Shape(s, cols, rows) && 1 <= w <= 2 && w <= cols
    ensures !Settle(s, cols, rows, w).pendingWrap
  {
    LineFeedWrap(s.(pendingWrap := false, col := 0), cols, rows);
    if w == 2 {
      var s1 := if s.pendingWrap then Wrapped(s.(pendingWrap := false), cols, rows) else s;
      LineFeedWrap(s1.(col := 0), cols, rows);
    }
  }

  lemma ControlWrap(s: Screen, cols: int, rows: int, b: Byte)
    requires Shape(s, cols, rows) && WrapOk(s, cols)
    ensures WrapOk(ControlChar(s, cols, rows, b), cols)
  {
    var s1 := s.(joinNext := false);
    LineFeedWrap(s1, cols, rows);
    PutWrap(s1, cols, rows, b);
  }

  lemma EditWrap(s: Screen, cols: int, rows: int, final: char, params: seq<nat>)
    requires Shape(s, cols, rows)
    ensures var s' := EditLines(s, cols, rows, final, params); s'.col == s.col && s'.pendingWrap == s.pendingWrap
  {
  }

  lemma PlainWrap(s: Screen, cols: int, rows: int, final: char, raw: seq<Byte>)
    requires Shape(s, cols, rows) && WrapOk(s, cols)
    ensures WrapOk(PlainCsi(s, cols, rows, final, raw), cols)
  {
    if Repositions(final) {
      RepositionedWrap(s.(pendingWrap := false, joinNext := false), cols, rows, final, raw);
    } else {
      EditWrap(s, cols, rows, final, Params(raw));
    }
  }

  lemma RepositionedWrap(s: Screen, cols: int, rows: int, final: char, raw: seq<Byte>)
    requires Shape(s, cols, rows) && !s.pendingWrap && Repositions(final)
    ensures !CsiAction(s, cols, rows, final, raw).pendingWrap
  {
  }

  lemma EscapeWrap(s: Screen, cols: int, rows: int, b: char)
    requires Shape(s, cols, rows) && WrapOk(s, cols)
    ensures WrapOk(EscapeScreen(s, cols, rows, b), cols) <==> !(b == 'E' && s.pendingWrap && cols >= 2)
  {
    LineFeedWrap(s, cols, rows);
    LineFeedWrap(s.(col := 0), cols, rows);
  }

  // ---- switching screens ----

  lemma {:induction false} SwitchesWrap(t: Term, enable: bool, params: seq<nat>)
    requires TermShape(t) && WrapsOk(t)
    ensures WrapsOk(SwitchScreens(t, enable, params)) <==>
            !(!enable && FirstMode(params) == 1049 && t.useAlternate && t.primary.pendingWrap
                  && t.primary.savedCol != t.cols - 1)
    decreases |params|
  {
    if params != [] {
      var next := SwitchScreen(t, enable, params[0]);
      if enable || params[0] !in {47, 1047, 1049} || !t.useAlternate {
        SwitchesWrap(next, enable, params[1..]);
      } else {
        SettledSwitches(next, params[1..]);
      }
    }
  }

  lemma {:induction false} SettledSwitches(t: Term, params: seq<nat>)
    requires TermShape(t) && !t.useAlternate
    ensures SwitchScreens(t, false, params) == t
    decreases |params|
  {
    if params != [] {
      SettledSwitches(t, params[1..]);
    }
  }

  // ---- the terminal ----

  predicate RestoresElsewhere(t: Term, final: char, raw: seq<Byte>) {
    && final == 'l' && |raw| > 0 && raw[0] as char == '?' && FirstMode(Params(raw[1..])) == 1049
    && t.useAlternate && t.primary.pendingWrap && t.primary.savedCol != t.cols - 1
  }

  lemma EraseWrap(s: Screen, cols: int, rows: int, mode: nat)
    requires Shape(s, cols, rows)
    ensures EraseDisplay(s, cols, rows, mode).col == s.col && EraseLine(s, cols, rows, mode).col == s.col
    ensures EraseDisplay(s, cols, rows, mode).pendingWrap == s.pendingWrap
    ensures EraseLine(s, cols, rows, mode).pendingWrap == s.pendingWrap
  {
  }

  lemma PrivateWrap(t: Term, final: char, raw: seq<Byte>)
    requires TermShape(t) && WrapsOk(t)
    ensures WrapsOk(PrivateCsi(t, final, raw)) <==>
            !(final == 'l' && FirstMode(Params(raw)) == 1049
              && t.useAlternate && t.primary.pendingWrap && t.primary.savedCol != t.cols - 1)
  {
    SwitchesWrap(t, final == 'h', Params(raw));
    EraseWrap(Current(t), t.cols, t.rows, PrivateEraseMode(raw));
  }

  lemma ExecuteWrap(t: Term, final: char, raw: seq<Byte>)
    requires TermShape(t) && WrapsOk(t)
    ensures WrapsOk(ExecuteCsi(t, final, raw)) <==> !RestoresElsewhere(t, final, raw)
  {
    if |raw| > 0 && PrivatePrefix(raw[0]) {
      PrivateWrap(t, final, raw[1..]);
    } else {
      PlainWrap(Current(t), t.cols, t.rows, final, raw);
    }
  }

  lemma EscapeByteWrap(t: Term, b: Byte)
    requires TermShape(t) && WrapsOk(t)
    ensures WrapsOk(EscapeByte(t, b)) <==> !(b as char == 'E' && Current(t).pendingWrap && t.cols >= 2)
  {
    EscapeWrap(Current(t), t.cols, t.rows, b as char);
  }

  lemma CsiByteWrap(t: Term, b: Byte)
    requires TermShape(t) && WrapsOk(t)
    ensures WrapsOk(CsiByte(t, b)) <==> !RestoresElsewhere(t, b as char, t.sequence)
  {
    ExecuteWrap(t, b as char, t.sequence);
  }

  /** A byte in any state of the parser but ground. */
  lemma DispatchWrap(t: Term, b: Byte)
    requires TermShape(t) && WrapsOk(t)
    ensures WrapsOk(Dispatch(t, b)) <==>
            && !(t.state == Escape && b as char == 'E' && Current(t).pendingWrap && t.cols >= 2)
            && !(t.state == Csi && RestoresElsewhere(t, b as char, t.sequence))
  {
    if t.state == Escape {
      EscapeByteWrap(t, b);
    } else if t.state == Csi {
      CsiByteWrap(t, b);
    }
  }

  lemma CountedByteWrap(t: Term, b: Byte)
    requires TermShape(t) && WrapsOk(t)
    ensures WrapsOk(CountedByte(t, b)) <==>
            && !(t.sequenceBytes < SEQUENCE_LIMIT && t.state == Escape && b as char == 'E'
                  && Current(t).pendingWrap && t.cols >= 2)
            && !(t.sequenceBytes < SEQUENCE_LIMIT && t.state == Csi && RestoresElsewhere(t, b as char, t.sequence))
  {
    DispatchWrap(Counted(t), b);
  }

  lemma ConsumeEscapeWrap(t: Term, b: Byte)
    requires TermShape(t) && WrapsOk(t) && t.state != Ground
    ensures WrapsOk(ConsumeEscape(t, b)) <==> !LosesWrap(t, b)
  {
    assert t.cols == 1 ==> t.primary.savedCol == 0;
    if t.state == StringEscape {
      CountedByteWrap(t.(state := Escape), b);
    } else if Discards(t.state) {
      DispatchWrap(t, b);
    } else {
      CountedByteWrap(t, b);
    }
  }

  /** Exactly these two kinds of input leave a wrap pending off the last column. */
  lemma ConsumeWrapExact(t: Term, data: seq<Byte>)
    requires TermShape(t) && WrapsOk(t) && |data| > 0
    ensures WrapsOk(Consume(t, data)) <==> !LosesWrap(t, data[0])
  {
    if t.state != Ground {
      ConsumeEscapeWrap(t, data[0]);
    } else if data[0] < RUNE_SELF {
      ControlWrap(Current(t), t.cols, t.rows, data[0]);
    } else {
      PutWrap(Current(t), t.cols, t.rows, DecodeRune(data).rune);
    }
  }

  /** No unit of a stream is of the two kinds. */
  predicate NoLoss(t: Term, data: seq<Byte>)
    requires TermShape(t)
    decreases |data|
  {
    data == [] || MustWait(t, data) || (!LosesWrap(t, data[0]) && NoLoss(Consume(t, data), data[UnitSize(t, data)..]))
  }

  lemma {:induction false} RunWrap(t: Term, data: seq<Byte>)
    requires TermShape(t) && WrapsOk(t) && NoLoss(t, data)
    ensures WrapsOk(Run(t, data))
    decreases |data|
  {
    if data != [] && !MustWait(t, data) {
      ConsumeWrapExact(t, data);
      RunWrap(Consume(t, data), data[UnitSize(t, data)..]);
    }
  }

  // ---- both kinds, as byte streams ----

  predicate Narrow(a: Rune) {
    Printable(a) && RuneWidth(a) == 1
  }

  /** Two narrow characters fill a line of two columns. */
  lemma FullLine(a: Rune)
    requires Narrow(a)
    ensures var t := Write(NewTerm(2, 1), EncodeAll([a, a]));
            && t == WithCurrent(NewTerm(2, 1), Current(t)) && Current(t).pendingWrap && Current(t).col == 1
            && Current(t).savedCol == 0 && !Current(t).joinNext
  {
    var t := NewTerm(2, 1);
    assert [a, a][..1] == [a] && [a][..0] == [];
    LayoutStep([a], a, false);
    LayoutStep([], a, false);
    assert [] + [a] == [a] && [a] + [a] == [a, a];
    WriteLine(t, [a, a]);
  }

  function NextLineBytes(a: Rune): seq<Byte>
    requires Narrow(a)
  {
    EncodeAll([a, a]) + [ESCAPE, 'E' as Byte]
  }

  lemma NextLineEffect(t: Term)
    requires TermShape(t) && t.state == Ground && t.utf8Pending == []
    ensures var t' := Write(t, [ESCAPE, 'E' as Byte]);
            Current(t').col == 0 && Current(t').pendingWrap == Current(t).pendingWrap
  {
    EscapeThen(t, 'E' as Byte);
    LineFeedWrap(Current(t).(joinNext := false, col := 0), t.cols, t.rows);
  }

  /** A full line and ESC E: the wrap is still pending, in the first column. */
  lemma NextLineWitness(a: Rune)
    requires Narrow(a)
    ensures var s := Current(Write(NewTerm(2, 1), NextLineBytes(a))); s.pendingWrap && s.col == 0
  {
    FullLine(a);
    NextLineEffect(Write(NewTerm(2, 1), EncodeAll([a, a])));
    ChunkInvariance(NewTerm(2, 1), EncodeAll([a, a]), [ESCAPE, 'E' as Byte]);
  }

  lemma EscapeThen(t: Term, b: Byte)
    requires TermShape(t) && t.state == Ground && t.utf8Pending == []
    ensures Write(t, [ESCAPE, b]) == Consume(Consume(t, [ESCAPE]), [b])
  {
    assert t.utf8Pending + [ESCAPE, b] == [ESCAPE] + [b] && t.(utf8Pending := []) == t;
    RunByte(t, ESCAPE, [b]);
    assert [b] + [] == [b];
    RunByte(Consume(t, [ESCAPE]), b, []);
  }

  function RestoreBytes(a: Rune): seq<Byte>
    requires Narrow(a)
  {
    EncodeAll([a, a]) + Sequence(Private(47), 'h') + Sequence(Private(1049), 'l')
  }

  lemma EnterBy47(t: Term)
    requires TermShape(t) && t.state == Ground && t.utf8Pending == [] && !t.useAlternate
    ensures var t' := Write(t, Sequence(Private(47), 'h'));
            t'.useAlternate && t'.primary == t.primary.(joinNext := false) && t'.state == Ground && t'.utf8Pending == []
  {
    assert Digits(47) == Digits(4) + [0x37];
    PrivateSequence(t, 47, 'h');
  }

  lemma LeaveBy1049(t: Term)
    requires TermShape(t) && t.state == Ground && t.utf8Pending == [] && t.useAlternate
    ensures var t' := Write(t, Sequence(Private(1049), 'l'));
            !t'.useAlternate && t'.primary.col == t.primary.savedCol && t'.primary.pendingWrap == t.primary.pendingWrap
  {
    PrivateShort();
    PrivateSequence(t, 1049, 'l');
  }

  /** A full line, the alternate screen entered by mode 47 and left by mode 1049: likewise. */
  lemma RestoreWitness(a: Rune)
    requires Narrow(a)
    ensures var s := Current(Write(NewTerm(2, 1), RestoreBytes(a))); s.pendingWrap && s.col == 0
  {
    FullLine(a);
    var t := Write(NewTerm(2, 1), EncodeAll([a, a]));
    EnterBy47(t);
    LeaveBy1049(Write(t, Sequence(Private(47), 'h')));
    ChunkInvariance(NewTerm(2, 1), EncodeAll([a, a]), Sequence(Private(47), 'h'));
    ChunkInvariance(NewTerm(2, 1), EncodeAll([a, a]) + Sequence(Private(47), 'h'), Sequence(Private(1049), 'l'));
  }
}
