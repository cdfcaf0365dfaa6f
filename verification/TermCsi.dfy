/** What control sequences mean, from their bytes to their effect on the screens
    (internal/supervisor/vterm.go, lines 130-258, 360-488, 535-661). */
module TermCsi {
  import opened Utf8
  import opened CsiParams
  import opened TermModel
  import opened TermChunks

  // ---- numbers in decimal ----

  function Digits(n: nat): seq<Byte> {
    if n < 10 then [0x30 + n] else Digits(n / 10) + [0x30 + n % 10]
  }

  lemma {:induction false} DecimalAppend(f: seq<Byte>, b: Byte, hi: nat)
    requires AllDigits(f) && Digit(b)
    ensures Decimal(f + [b], hi) == Decimal(f, hi) * 10 + (b - 0x30)
    decreases |f|
  {
    if f == [] {
      assert ([b])[1..] == [];
    } else {
      assert (f + [b])[1..] == f[1..] + [b];
      DecimalAppend(f[1..], b, hi * 10 + (f[0] - 0x30));
    }
  }

  lemma {:induction false} DigitsDecimal(n: nat)
    ensures AllDigits(Digits(n)) && Decimal(Digits(n), 0) == n
  {
    if n >= 10 {
      DigitsDecimal(n / 10);
      DecimalAppend(Digits(n / 10), 0x30 + n % 10, 0);
    } else {
      assert [0x30 + n][1..] == [];
    }
  }

  /** A number written out reads back as itself, or as 65535 if it is larger. */
  lemma NumberRoundTrip(n: nat)
    ensures AllDigits(Digits(n)) && Numeral(Digits(n)) == Min(n, PARAM_MAX)
  {
    DigitsDecimal(n);
    NumeralSaturates(Digits(n), 0);
  }

  lemma {:induction false} SplitNone(f: seq<Byte>, sep: Byte)
    requires sep !in f
    ensures Split(f, sep) == [f]
    decreases |f|
  {
    if f != [] {
      SplitNone(f[1..], sep);
      assert [f[0]] + f[1..] == f && [f[1..]][1..] == [];
    }
  }

  lemma {:induction false} SplitFirst(f: seq<Byte>, sep: Byte, g: seq<Byte>)
    requires sep !in f
    ensures Split(f + [sep] + g, sep) == [f] + Split(g, sep)
    decreases |f|
  {
    var s := f + [sep] + g;
    if f == [] {
      assert s[1..] == g;
    } else {
      assert s[1..] == f[1..] + [sep] + g;
      SplitFirst(f[1..], sep, g);
      var rest := Split(s[1..], sep);
      assert rest[0] == f[1..] && rest[1..] == Split(g, sep) && [f[0]] + f[1..] == f;
    }
  }

  function TwoNumbers(a: nat, b: nat): seq<Byte> {
    Digits(a) + [SEMICOLON] + Digits(b)
  }

  lemma ParamsOfNumber(a: nat)
    ensures Params(Digits(a)) == [Min(a, PARAM_MAX)] && Plain(Digits(a))
  {
    NumberRoundTrip(a);
    var f := Digits(a);
    SplitNone(f, SEMICOLON);
    SplitNone(f, COLON);
    assert SplitAll([f], COLON) == [f];
  }

  lemma ParamsOfTwo(a: nat, b: nat)
    ensures Params(TwoNumbers(a, b)) == [Min(a, PARAM_MAX), Min(b, PARAM_MAX)] && Plain(TwoNumbers(a, b))
  {
    NumberRoundTrip(a);
    NumberRoundTrip(b);
    var f, g := Digits(a), Digits(b);
    SplitFirst(f, SEMICOLON, g);
    SplitNone(g, SEMICOLON);
    SplitNone(f, COLON);
    SplitNone(g, COLON);
    assert [f, g][1..] == [g] && SplitAll([g], COLON) == [g];
    assert SplitAll([f, g], COLON) == [f, g];
  }

  // ---- from bytes to execution ----

  const ESCAPE: Byte := 0x1b

  function Sequence(raw: seq<Byte>, final: char): seq<Byte>
    requires '@' <= final <= '~'
  {
    [ESCAPE, '[' as Byte] + raw + [final as Byte]
  }

  predicate ParamBytes(raw: seq<Byte>) {
    |raw| < SEQUENCE_LIMIT && forall i :: 0 <= i < |raw| ==> 0x20 <= raw[i] <= 0x3f
  }

  lemma RunByte(t: Term, b: Byte, rest: seq<Byte>)
    requires TermShape(t) && (t.state != Ground || b < RUNE_SELF)
    ensures Run(t, [b] + rest) == Run(Consume(t, [b]), rest)
  {
    var data := [b] + rest;
    assert data[1..] == rest;
    UnitStable(t, [b], rest);
  }

  /** The parser after ESC [ and the parameter bytes so far. */
  function Collecting(t: Term, raw: seq<Byte>): Term {
    WithCurrent(t, Current(t).(joinNext := false)).(state := Csi, sequence := raw, sequenceBytes := |raw|)
  }

  lemma CollectOne(t: Term, before: seq<Byte>, b: Byte)
    requires TermShape(t) && |before| < SEQUENCE_LIMIT && 0x20 <= b <= 0x3f
    ensures Consume(Collecting(t, before), [b]) == Collecting(t, before + [b])
  {
  }

  lemma CollectFinal(t: Term, raw: seq<Byte>, final: char)
    requires TermShape(t) && |raw| < SEQUENCE_LIMIT && '@' <= final <= '~'
    ensures Consume(Collecting(t, raw), [final as Byte]) ==
            ExecuteCsi(Collecting(t, raw).(sequenceBytes := |raw| + 1), final, raw).(state := Ground)
  {
  }

  lemma {:induction false} CollectParams(t: Term, before: seq<Byte>, left: seq<Byte>, rest: seq<Byte>)
    requires TermShape(t) && ParamBytes(before + left)
    ensures Run(Collecting(t, before), left + rest) == Run(Collecting(t, before + left), rest)
    decreases |left|
  {
    if left == [] {
      assert before + left == before && left + rest == rest;
    } else {
      var b, more := left[0], left[1..];
      assert (before + left)[|before|] == b;
      assert left + rest == [b] + (more + rest);
      assert before + [b] + more == before + left;
      RunByte(Collecting(t, before), b, more + rest);
      CollectOne(t, before, b);
      CollectParams(t, before + [b], more, rest);
    }
  }

  lemma EscapeBracket(t: Term)
    requires TermShape(t) && t.state == Ground
    ensures TermShape(Consume(t, [ESCAPE])) && Consume(t, [ESCAPE]).state == Escape
    ensures Consume(Consume(t, [ESCAPE]), ['[' as Byte]) == Collecting(t, [])
  {
  }

  lemma EnterCsi(t: Term, rest: seq<Byte>)
    requires TermShape(t) && t.state == Ground && t.utf8Pending == []
    ensures Write(t, [ESCAPE, '[' as Byte] + rest) == Run(Collecting(t, []), rest)
  {
    var data := [ESCAPE, '[' as Byte] + rest;
    assert t.utf8Pending + data == data && t.(utf8Pending := []) == t;
    assert data == [ESCAPE] + (['[' as Byte] + rest);
    EscapeBracket(t);
    RunByte(t, ESCAPE, ['[' as Byte] + rest);
    RunByte(Consume(t, [ESCAPE]), '[' as Byte, rest);
  }

  /** Writing a whole control sequence executes it, and leaves the parser in ground state. */
  lemma SequenceExecutes(t: Term, raw: seq<Byte>, final: char)
    requires TermShape(t) && t.state == Ground && t.utf8Pending == [] && ParamBytes(raw) && '@' <= final <= '~'
    ensures Write(t, Sequence(raw, final)) ==
              ExecuteCsi(Collecting(t, raw).(sequenceBytes := |raw| + 1), final, raw).(state := Ground)
  {
    assert Sequence(raw, final) == [ESCAPE, '[' as Byte] + (raw + [final as Byte]);
    EnterCsi(t, raw + [final as Byte]);
    assert [] + raw == raw;
    CollectParams(t, [], raw, [final as Byte]);
    assert [final as Byte] + [] == [final as Byte];
    RunByte(Collecting(t, raw), final as Byte, []);
    CollectFinal(t, raw, final);
  }

  /** An ordinary sequence changes the current screen as its action says and nothing else. */
  lemma PlainSequence(t: Term, raw: seq<Byte>, final: char)
    requires TermShape(t) && t.state == Ground && t.utf8Pending == [] && |raw| < SEQUENCE_LIMIT && Plain(raw)
    requires '@' <= final <= '~'
    ensures var t' := Write(t, Sequence(raw, final));
            && Current(t') == PlainCsi(Current(t).(joinNext := false), t.cols, t.rows, final, raw)
            && Other(t') == Other(t) && t'.useAlternate == t.useAlternate && t'.state == Ground && t'.utf8Pending == []
  {
    SequenceExecutes(t, raw, final);
    assert |raw| > 0 ==> !PrivatePrefix(raw[0]);
  }

  /** Cursor addressing: the cursor lands on the row and column named, counted from one and cut off at
      the edges, and every cell stays as it is. */
  lemma AddressCursor(t: Term, row: nat, col: nat)
    requires TermShape(t) && t.state == Ground && t.utf8Pending == [] && |TwoNumbers(row, col)| < SEQUENCE_LIMIT
    ensures var t' := Write(t, Sequence(TwoNumbers(row, col), 'H'));
            && Other(t') == Other(t)
            && Current(t') == Current(t).(joinNext := false, pendingWrap := false,
                 row := Clamp(Max(1, Min(row, PARAM_MAX)) - 1, 0, t.rows - 1),
                 col := Clamp(Max(1, Min(col, PARAM_MAX)) - 1, 0, t.cols - 1))
  {
    ParamsOfTwo(row, col);
    PlainSequence(t, TwoNumbers(row, col), 'H');
  }

  // ---- line editing undone ----

  lemma SpliceDownUp<T>(s: seq<T>, from: int, bottom: int, entering: seq<T>, i: nat)
    requires 0 <= from <= bottom < |s| && |entering| <= bottom - from + 1 && i < |s|
    ensures var k := |entering|;
            SpliceUp(SpliceDown(s, from, bottom, entering), from, bottom, entering)[i] ==
            if bottom - k < i <= bottom then entering[i - (bottom - k + 1)] else s[i]
  {
    var down := SpliceDown(s, from, bottom, entering);
    assert from <= i <= bottom - |entering| ==> down[i + |entering|] == s[i];
  }

  lemma SpliceUpDown<T>(s: seq<T>, from: int, bottom: int, entering: seq<T>, i: nat)
    requires 0 <= from <= bottom < |s| && |entering| <= bottom - from + 1 && i < |s|
    ensures SpliceDown(SpliceUp(s, from, bottom, entering), from, bottom, entering)[i] ==
            if from <= i < from + |entering| then entering[i - from] else s[i]
  {
    var up := SpliceUp(s, from, bottom, entering);
    assert from + |entering| <= i <= bottom ==> up[i - |entering|] == s[i];
  }

  /** Inserting n lines and deleting them again: only the n lowest lines of the region are lost. */
  lemma InsertDeleteLines(s: Screen, cols: int, rows: int, n: nat, i: nat)
    requires Shape(s, cols, rows) && s.scrollTop <= s.row <= s.scrollBottom && i < rows
    ensures var k := Min(n, s.scrollBottom - s.row + 1);
            ScrollUpAt(ScrollDownAt(s, cols, rows, s.row, n), cols, rows, s.row, n).cells[i] ==
            if s.scrollBottom - k < i <= s.scrollBottom then Blanks(cols) else s.cells[i]
  {
    SpliceDownUp(s.cells, s.row, s.scrollBottom, BlankRows(Min(n, s.scrollBottom - s.row + 1), cols), i);
  }

  /** Scrolling up and down again: only the n highest lines of the region are lost. */
  lemma ScrollUpDown(s: Screen, cols: int, rows: int, n: nat, i: nat)
    requires Shape(s, cols, rows) && i < rows
    ensures var k := Min(n, s.scrollBottom - s.scrollTop + 1);
            ScrollDownAt(ScrollUpAt(s, cols, rows, s.scrollTop, n), cols, rows, s.scrollTop, n).cells[i] ==
            if s.scrollTop <= i < s.scrollTop + k then Blanks(cols) else s.cells[i]
  {
    SpliceUpDown(s.cells, s.scrollTop, s.scrollBottom, BlankRows(Min(n, s.scrollBottom - s.scrollTop + 1), cols), i);
  }

  // ---- the alternate screen ----

  const ALTERNATE: nat := 1049

  function Private(p: nat): seq<Byte> {
    ['?' as Byte] + Digits(p)
  }

  lemma ExecutePrivate(t: Term, p: nat, final: char)
    requires TermShape(t) && final in "hl" && p <= PARAM_MAX
    ensures ExecuteCsi(t, final, Private(p)) == SwitchScreen(t, final == 'h', p)
  {
    ParamsOfNumber(p);
    assert Private(p)[1..] == Digits(p) && Private(p)[0] as char == '?';
    assert [p][1..] == [];
    assert SwitchScreens(t, final == 'h', [p]) == SwitchScreens(SwitchScreen(t, final == 'h', p), final == 'h', []);
  }

  lemma PrivateSequence(t: Term, p: nat, final: char)
    requires TermShape(t) && t.state == Ground && t.utf8Pending == [] && |Private(p)| < SEQUENCE_LIMIT && final in "hl"
    requires p <= PARAM_MAX
    ensures Write(t, Sequence(Private(p), final)) ==
            var c := Collecting(t, Private(p)).(sequenceBytes := |Private(p)| + 1);
            SwitchScreen(c, final == 'h', p).(state := Ground)
  {
    NumberRoundTrip(p);
    SequenceExecutes(t, Private(p), final);
    ExecutePrivate(Collecting(t, Private(p)).(sequenceBytes := |Private(p)| + 1), p, final);
  }

  /** Whether a run stays on the alternate screen all along. */
  predicate StaysAlternate(t: Term, data: seq<Byte>)
    requires TermShape(t)
    decreases |data|
  {
    && t.useAlternate
    && (data == [] || MustWait(t, data) || StaysAlternate(Consume(t, data), data[UnitSize(t, data)..]))
  }

  lemma ConsumeKeepsPrimary(t: Term, data: seq<Byte>)
    requires TermShape(t) && |data| > 0 && t.useAlternate && Consume(t, data).useAlternate
    ensures Consume(t, data).primary == t.primary
  {
    if t.state != Ground {
      EscapeKeepsPrimary(t, data[0]);
    }
  }

  lemma EscapeKeepsPrimary(t: Term, b: Byte)
    requires TermShape(t) && t.useAlternate && ConsumeEscape(t, b).useAlternate
    ensures ConsumeEscape(t, b).primary == t.primary
  {
    DispatchKeepsPrimary(t, b);
    DispatchKeepsPrimary(Counted(t), b);
    DispatchKeepsPrimary(Counted(t.(state := Escape)), b);
  }

  lemma DispatchKeepsPrimary(t: Term, b: Byte)
    requires TermShape(t) && t.useAlternate
    ensures Dispatch(t, b).useAlternate ==> Dispatch(t, b).primary == t.primary
  {
    if t.state == Csi {
      ExecuteKeepsPrimary(t, b as char, t.sequence);
    }
  }

  lemma {:induction false} SwitchesFromAlternate(t: Term, enable: bool, params: seq<nat>)
    requires TermShape(t) && (t.useAlternate || !enable)
    ensures SwitchScreens(t, enable, params).useAlternate ==> SwitchScreens(t, enable, params) == t
    decreases |params|
  {
    if params != [] {
      SwitchesFromAlternate(SwitchScreen(t, enable, params[0]), enable, params[1..]);
    }
  }

  lemma ExecuteKeepsPrimary(t: Term, final: char, raw: seq<Byte>)
    requires TermShape(t) && t.useAlternate
    ensures ExecuteCsi(t, final, raw).useAlternate ==> ExecuteCsi(t, final, raw).primary == t.primary
  {
    if |raw| > 0 {
      SwitchesFromAlternate(t, final == 'h', Params(raw[1..]));
    }
  }

  lemma {:induction false} RunKeepsPrimary(t: Term, data: seq<Byte>)
    requires TermShape(t) && StaysAlternate(t, data)
    ensures Run(t, data).primary == t.primary && Run(t, data).useAlternate
    decreases |data|
  {
    if data != [] && !MustWait(t, data) {
      ConsumeKeepsPrimary(t, data);
      RunKeepsPrimary(Consume(t, data), data[UnitSize(t, data)..]);
    }
  }

  /** Entering the alternate screen, doing anything there and leaving it gives back the primary screen
      with every cell, the cursor and the brightness it had; only a pending joiner is forgotten. */
  lemma AlternateRoundTrip(t: Term, data: seq<Byte>)
    requires TermShape(t) && t.state == Ground && t.utf8Pending == [] && !t.useAlternate
    requires StaysAlternate(Write(t, Sequence(Private(ALTERNATE), 'h')), data)
    requires var t2 := Write(Write(t, Sequence(Private(ALTERNATE), 'h')), data);
             t2.state == Ground && t2.utf8Pending == []
    ensures var t2 := Write(Write(t, Sequence(Private(ALTERNATE), 'h')), data);
            var t3 := Write(t2, Sequence(Private(ALTERNATE), 'l'));
            !t3.useAlternate && t3.primary == SaveCursor(t.primary.(joinNext := false))
  {
    PrivateShort();
    PrivateSequence(t, ALTERNATE, 'h');
    var t1 := Write(t, Sequence(Private(ALTERNATE), 'h'));
    assert t1.utf8Pending == [] && t1.primary == SaveCursor(t.primary.(joinNext := false));
    assert t1.utf8Pending + data == data && t1.(utf8Pending := []) == t1;
    RunKeepsPrimary(t1, data);
    LeaveAlternate(Write(t1, data), t.primary.(joinNext := false));
  }

  lemma LeaveAlternate(t: Term, before: Screen)
    requires TermShape(t) && t.state == Ground && t.utf8Pending == [] && t.useAlternate
    requires t.primary == SaveCursor(before)
    ensures var t' := Write(t, Sequence(Private(ALTERNATE), 'l')); !t'.useAlternate && t'.primary == SaveCursor(before)
  {
    PrivateShort();
    PrivateSequence(t, ALTERNATE, 'l');
  }

  lemma PrivateShort()
    ensures |Private(ALTERNATE)| == 5
  {
    assert Digits(104) == Digits(10) + [0x34] && Digits(10) == Digits(1) + [0x30];
    assert Digits(1049) == Digits(104) + [0x39];
  }
}
