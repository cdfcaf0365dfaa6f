/** Printing at the edges, screen switching, what is ignored, private erasing and resizing
    (internal/supervisor/vterm.go, lines 302-346, 360-395, 504-509, 535-562, 707-738). */
module TermModes {
  import opened Utf8
  import opened CsiParams
  import opened TermModel
  import opened TermChunks
  import opened TermInvariant
  import opened TermText
  import opened TermCsi
  import opened TermEffects
  import opened TermEdits

  // ---- printing ----

  /** The screen after a character of width w is printed at the cursor: its cells, the cursor behind it, or
      in the last column with a wrap pending if it filled the line. */
  predicate PrintedAt(s: Screen, s': Screen, cols: int, ch: Rune, w: nat)
    requires 1 <= w <= 2 && 0 <= s.row < |s.cells| && |s.cells[s.row]| == cols && 0 <= s.col && s.col + w <= cols
  {
    s' == s.(cells := s.cells[s.row := PrintInto(s.cells[s.row], s.col, ch, w, s.faint)],
             col := if s.col + w == cols then cols - 1 else s.col + w,
             pendingWrap := s.pendingWrap || s.col + w == cols)
  }

  lemma PutEffect(s: Screen, cols: int, rows: int, ch: Rune)
    requires Shape(s, cols, rows) && cols >= 2 && RuneWidth(ch) >= 1 && !s.joinNext
    ensures var w := RuneWidth(ch);
            var next := LineFeed(s.(col := 0, pendingWrap := false), cols, rows);
            && (!s.pendingWrap && s.col + w <= cols ==> PrintedAt(s, Put(s, cols, rows, ch), cols, ch, w))
            && (s.pendingWrap || s.col + w > cols ==> PrintedAt(next, Put(s, cols, rows, ch), cols, ch, w))
  {
    PutSettles(s, cols, rows, RuneWidth(ch));
    LineFeedEffect(s.(col := 0, pendingWrap := false), cols, rows, 0);
  }

  lemma PutSettles(s: Screen, cols: int, rows: int, w: nat)
    requires Shape(s, cols, rows) && cols >= 2 && 1 <= w <= 2
    ensures Settle(s, cols, rows, w) ==
            if s.pendingWrap || s.col + w > cols then LineFeed(s.(col := 0, pendingWrap := false), cols, rows) else s
  {
    LineFeedEffect(s.(col := 0, pendingWrap := false), cols, rows, 0);
  }

  /** A zero-width rune, or any rune after a joiner, is added to the character before the cursor: the one
      under it if a wrap is pending, and its first half if it is a wide one. */
  lemma AttachEffect(s: Screen, cols: int, rows: int, ch: Rune)
    requires Shape(s, cols, rows) && (RuneWidth(ch) == 0 || s.joinNext)
    ensures var s' := Put(s, cols, rows, ch);
            var at := if s.pendingWrap then s.col else s.col - 1;
            var c := if at >= 0 && s.cells[s.row][at].continuation then at - 1 else at;
            && s'.joinNext == (ch == JOINER) && s'.(cells := s.cells, joinNext := s.joinNext) == s
            && (c < 0 ==> s'.cells == s.cells)
            && (c >= 0 ==>
                  var cell := s.cells[s.row][c];
                  s'.cells == s.cells[s.row := s.cells[s.row][c := cell.(text := cell.text + [ch])]])
  {
  }

  // ---- switching screens ----

  predicate Switches(p: nat) {
    p == 47 || p == 1047 || p == 1049
  }

  /** Setting a mode shows the alternate screen: the old one by 47, a blank one otherwise; 1049 saves the
      cursor first. Resetting shows the primary again; 1049 restores the cursor. Twice is once. */
  lemma ModeEffect(t: Term, p: nat, final: char)
    requires Ready(t) && final in "hl" && p <= PARAM_MAX && |Private(p)| < SEQUENCE_LIMIT
    ensures var t' := Write(t, Sequence(Private(p), final));
            var primary, alternate := t.primary, t.alternate;
            && Ready(t')
            && (final == 'h' && Switches(p) && !t.useAlternate ==>
                  && t'.useAlternate
                  && t'.alternate == (if p == 47 then alternate else NewScreen(t.cols, t.rows)).(faint := primary.faint)
                  && t'.primary == if p == 1049
                                   then primary.(joinNext := false, savedRow := primary.row,
                                         savedCol := primary.col, savedFaint := primary.faint)
                                   else primary.(joinNext := false))
            && (final == 'l' && Switches(p) && t.useAlternate ==>
                  && !t'.useAlternate && t'.alternate == alternate.(joinNext := false)
                  && t'.primary == if p == 1049
                                   then primary.(row := primary.savedRow, col := primary.savedCol,
                                         faint := primary.savedFaint)
                                   else primary.(faint := alternate.faint))
            && (!Switches(p) || (final == 'h') == t.useAlternate ==>
                  t'.useAlternate == t.useAlternate && Other(t') == Other(t)
                      && Current(t') == Current(t).(joinNext := false))
  {
    PrivateSequence(t, p, final);
  }

  /** Several modes in one sequence do what they do one after the other. */
  lemma {:induction false} SwitchesInTurn(t: Term, enable: bool, first: seq<nat>, second: seq<nat>)
    requires TermShape(t)
    ensures SwitchScreens(t, enable, first + second) == SwitchScreens(SwitchScreens(t, enable, first), enable, second)
    decreases |first|
  {
    if first == [] {
      assert first + second == second;
    } else {
      assert (first + second)[1..] == first[1..] + second;
      SwitchesInTurn(SwitchScreen(t, enable, first[0]), enable, first[1..], second);
    }
  }

  /** From the bytes: the modes of a private sequence are its parameters, in turn. */
  lemma ModesEffect(t: Term, raw: seq<Byte>, final: char)
    requires Ready(t) && final in "hl" && ParamBytes(['?' as Byte] + raw)
    ensures var t' := Write(t, Sequence(['?' as Byte] + raw, final));
            var u := SwitchScreens(WithCurrent(t, Current(t).(joinNext := false)), final == 'h', Params(raw));
            && Ready(t') && t'.primary == u.primary && t'.alternate == u.alternate && t'.useAlternate == u.useAlternate
  {
    var whole := ['?' as Byte] + raw;
    SequenceExecutes(t, whole, final);
    assert whole[0] as char == '?' && whole[1..] == raw;
    var c := Collecting(t, whole).(sequenceBytes := |whole| + 1);
    SwitchesScreensOnly(WithCurrent(t, Current(t).(joinNext := false)), c, final == 'h', Params(raw));
  }

  lemma {:induction false} SwitchesScreensOnly(t: Term, c: Term, enable: bool, params: seq<nat>)
    requires TermShape(t) && TermShape(c) && c.cols == t.cols && c.rows == t.rows
    requires c.primary == t.primary && c.alternate == t.alternate && c.useAlternate == t.useAlternate
    ensures var u, d := SwitchScreens(t, enable, params), SwitchScreens(c, enable, params);
            && d.primary == u.primary && d.alternate == u.alternate && d.useAlternate == u.useAlternate
            && d.utf8Pending == c.utf8Pending
    decreases |params|
  {
    if params != [] {
      SwitchesScreensOnly(SwitchScreen(t, enable, params[0]), SwitchScreen(c, enable, params[0]), enable, params[1..]);
    }
  }

  // ---- what is ignored ----

  /** Another prefix, a private sequence that neither erases nor switches, and parameters that are not numbers. */
  predicate Unknown(raw: seq<Byte>, final: char) {
    if raw != [] && raw[0] as char in "?><=!" then raw[0] as char != '?' || final !in "JKhl" else !Plain(raw)
  }

  lemma UnknownIgnored(t: Term, raw: seq<Byte>, final: char)
    requires Ready(t) && ParamBytes(raw) && '@' <= final <= '~' && Unknown(raw, final)
    ensures var t' := Write(t, Sequence(raw, final));
            && Ready(t') && Current(t') == Current(t).(joinNext := false) && Other(t') == Other(t)
            && t'.useAlternate == t.useAlternate
  {
    SequenceExecutes(t, raw, final);
  }

  /** A missing number means zero. */
  lemma MissingIsZero(t: Term, final: char)
    requires Ready(t) && '@' <= final <= '~' && final !in "sum"
    ensures Current(Write(t, Sequence([], final))) == Current(Numbered(t, 0, final))
  {
    PlainSequence(t, [], final);
    NumberedWritten(t, 0, final);
    SplitNone([], SEMICOLON);
    SplitNone([], COLON);
    assert SplitAll([[]], COLON) == [[]];
    NumberRoundTrip(0);
    assert Params([]) == Params(Digits(0));
  }

  // ---- private erasing ----

  lemma PrivateMode(t: Term, raw: seq<Byte>, final: char, p: nat)
    requires TermShape(t) && final in "JK" && p < 10 && raw == Private(p)
    ensures ExecuteCsi(t, final, raw) ==
            WithCurrent(t, if final == 'J' then EraseDisplay(Current(t), t.cols, t.rows, 0)
                           else EraseLine(Current(t), t.cols, t.rows, 0))
  {
    assert raw[0] as char == '?' && raw[1..] == Digits(p) && |Digits(p)| == 1;
  }

  /** The private erases lose the first digit of their number, so that any one digit means zero. */
  lemma PrivateEraseEffect(t: Term, p: nat, final: char)
    requires Ready(t) && final in "JK" && p < 10
    ensures var t' := Write(t, Sequence(Private(p), final));
            && Ready(t') && Other(t') == Other(t) && t'.useAlternate == t.useAlternate
            && Current(t') == Current(Numbered(t, 0, final))
  {
    assert ParamBytes(Private(p));
    SequenceExecutes(t, Private(p), final);
    PrivateMode(Collecting(t, Private(p)).(sequenceBytes := |Private(p)| + 1), Private(p), final, p);
    NumberedWritten(t, 0, final);
    PlainErase(Current(t).(joinNext := false), t.cols, t.rows, final, Digits(0), 0);
  }

  /** Whether an erase of this mode reaches the cell: in the cursor's line by columns, elsewhere, if it is the
      display that is erased, by lines. */
  predicate Erased(s: Screen, cols: int, rows: int, mode: nat, final: char, r: nat, c: nat)
    requires Shape(s, cols, rows) && r < rows && c < cols
  {
    if r == s.row then mode <= 2 && Blanked(s.cells[r], Span(mode, s.col, cols).0, Span(mode, s.col, cols).1, c)
    else final == 'J' && (mode == 2 || (mode == 0 && r > s.row) || (mode == 1 && r < s.row))
  }

  lemma ErasedCell(t: Term, n: nat, final: char, r: nat, c: nat)
    requires Ready(t) && GridOk(Current(t).cells) && n < 10 && final in "JK" && r < t.rows && c < t.cols
    ensures var s, s' := Current(t), Current(Numbered(t, n, final));
            && s'.(cells := s.cells) == s.(joinNext := false) && GridShape(s'.cells, t.cols, t.rows)
            && s'.cells[r][c] == if Erased(s, t.cols, t.rows, n, final, r, c) then BLANK else s.cells[r][c]
  {
    assert Digits(n) == [0x30 + n];
    if final == 'J' {
      EraseDisplayEffect(t, n, r, c);
    } else {
      EraseLineEffect(t, n, r, c);
    }
  }

  /** Every cell that one mode reaches and the other does not is blank already. */
  ghost predicate SameErased(s: Screen, cols: int, rows: int, mode: nat, other: nat, final: char)
    requires Shape(s, cols, rows)
  {
    forall r, c :: 0 <= r < rows && 0 <= c < cols
        && Erased(s, cols, rows, mode, final, r, c) != Erased(s, cols, rows, other, final, r, c)
        ==> s.cells[r][c] == BLANK
  }

  /** The screen a is s with the cells blanked that this mode reaches. */
  ghost predicate ErasedScreen(s: Screen, a: Screen, cols: int, rows: int, mode: nat, final: char)
    requires Shape(s, cols, rows)
  {
    && a.(cells := s.cells) == s.(joinNext := false) && GridShape(a.cells, cols, rows)
    && forall r, c :: 0 <= r < rows && 0 <= c < cols ==>
         a.cells[r][c] == if Erased(s, cols, rows, mode, final, r, c) then BLANK else s.cells[r][c]
  }

  lemma EraseScreen(t: Term, n: nat, final: char)
    requires Ready(t) && GridOk(Current(t).cells) && n < 10 && final in "JK"
    ensures ErasedScreen(Current(t), Current(Numbered(t, n, final)), t.cols, t.rows, n, final)
  {
    var s, a := Current(t), Current(Numbered(t, n, final));
    ErasedCell(t, n, final, 0, 0);
    forall r, c | 0 <= r < t.rows && 0 <= c < t.cols
      ensures a.cells[r][c] == if Erased(s, t.cols, t.rows, n, final, r, c) then BLANK else s.cells[r][c]
    {
      ErasedCell(t, n, final, r, c);
    }
  }

  lemma ErasesCompared(s: Screen, a: Screen, b: Screen, cols: int, rows: int, m: nat, n: nat, final: char)
    requires Shape(s, cols, rows)
    requires ErasedScreen(s, a, cols, rows, m, final) && ErasedScreen(s, b, cols, rows, n, final)
    ensures a == b <==> SameErased(s, cols, rows, m, n, final)
  {
    assert a.(cells := b.cells) == b;
    if SameErased(s, cols, rows, m, n, final) {
      SameGrids(a.cells, b.cells, cols, rows);
    }
  }

  lemma SameGrids(g: Grid, h: Grid, cols: int, rows: int)
    requires GridShape(g, cols, rows) && GridShape(h, cols, rows)
    requires forall r, c :: 0 <= r < rows && 0 <= c < cols ==> g[r][c] == h[r][c]
    ensures g == h
  {
    forall r | 0 <= r < rows
      ensures g[r] == h[r]
    {
      assert forall c :: 0 <= c < cols ==> g[r][c] == h[r][c];
    }
  }

  /** A private erase does what the ordinary one with its number does if and only if all that only one of that
      number and zero reaches is blank already. */
  lemma PrivateEraseExact(t: Term, p: nat, final: char)
    requires Ready(t) && GridOk(Current(t).cells) && p < 10 && final in "JK"
    ensures Current(Write(t, Sequence(Private(p), final))) == Current(Numbered(t, p, final))
            <==> SameErased(Current(t), t.cols, t.rows, 0, p, final)
  {
    PrivateEraseEffect(t, p, final);
    EraseScreen(t, 0, final);
    EraseScreen(t, p, final);
    ErasesCompared(Current(t), Current(Numbered(t, 0, final)), Current(Numbered(t, p, final)), t.cols, t.rows, 0, p,
                   final);
  }

  const LETTER: Byte := 'a' as Byte

  /** One letter on a new terminal: ESC [ ? 2 J, which should clear the display, leaves it there. */
  lemma PrivateEraseWitness()
    requires RuneWidth(LETTER) == 1
    ensures var t := Write(NewTerm(2, 1), [LETTER]);
            Current(Write(t, Sequence(Private(2), 'J'))).cells[0][0].text == [LETTER]
  {
    var t0 := NewTerm(2, 1);
    assert t0.utf8Pending + [LETTER] == [LETTER] && t0.(utf8Pending := []) == t0 && [LETTER] + [] == [LETTER];
    RunByte(t0, LETTER, []);
    var t := Write(t0, [LETTER]);
    var s := Current(t);
    LetterPrinted(t0.primary);
    assert Ready(t) && s.row == 0 && s.col == 1 && s.cells == [[Cell([LETTER], false, false), BLANK]];
    PrivateEraseEffect(t, 2, 'J');
    assert RowOk(s.cells[0]);
    ErasedCell(t, 0, 'J', 0, 0);
  }

  lemma LetterPrinted(s: Screen)
    requires RuneWidth(LETTER) == 1 && s == NewScreen(2, 1)
    ensures ControlChar(s, 2, 1, LETTER) == s.(cells := [[Cell([LETTER], false, false), BLANK]], col := 1)
  {
    assert s.cells[0] == [BLANK, BLANK];
    assert PrintInto(s.cells[0], 0, LETTER, 1, false) == [Cell([LETTER], false, false), BLANK];
  }

  // ---- resizing ----

  // ---- resizing ----

  /** A row cut or filled up to so many columns, before halves are dropped. */
  function Cropped(r: Row, cols: nat): (r': Row)
    ensures |r'| == cols
  {
    seq(cols, c requires 0 <= c < cols => if c < |r| then r[c] else BLANK)
  }

  lemma ResizeRowCells(r: Row, cols: nat, c: nat)
    requires c < cols
    ensures var row := Cropped(r, cols);
            ResizeRow(r, cols)[c] == if cols >= 2 && Orphan(row, c) then BLANK else row[c]
  {
    assert Cropped(r, cols) == r[..Min(cols, |r|)] + Blanks(cols - Min(cols, |r|));
    if cols >= 2 {
      RepairPointwise(Cropped(r, cols), 0, c);
    }
  }

  /** The upper left part stays, halves of wide characters cut are blanked, the rest is blank; cursors are
      cut off at the edges and the region is the whole screen. */
  lemma ResizeEffect(s: Screen, cols: nat, rows: nat, r: nat, c: nat)
    requires cols >= 1 && rows >= 1 && r < rows && c < cols
    ensures var s' := ResizeScreen(s, cols, rows);
            && s'.row == Clamp(s.row, 0, rows - 1) && s'.col == Clamp(s.col, 0, cols - 1)
            && s'.savedRow == Clamp(s.savedRow, 0, rows - 1) && s'.savedCol == Clamp(s.savedCol, 0, cols - 1)
            && s'.scrollTop == 0 && s'.scrollBottom == rows - 1 && !s'.pendingWrap
            && s'.faint == s.faint && s'.joinNext == s.joinNext && s'.savedFaint == s.savedFaint
            && (r >= |s.cells| ==> s'.cells[r][c] == BLANK)
            && (r < |s.cells| ==>
                  var row := Cropped(s.cells[r], cols);
                  s'.cells[r][c] == if cols >= 2 && Orphan(row, c) then BLANK else row[c])
  {
    if r < |s.cells| {
      ResizeRowCells(s.cells[r], cols, c);
      assert ResizeGrid(s.cells, cols, rows)[r] == ResizeRow(s.cells[r], cols);
    } else {
      BlankRowRepaired(cols, c);
      assert ResizeGrid(s.cells, cols, rows)[r] == Repair(Blanks(cols));
    }
  }

  lemma BlankRowRepaired(cols: nat, c: nat)
    requires c < cols
    ensures Repair(Blanks(cols))[c] == BLANK
  {
    if cols >= 2 {
      RepairPointwise(Blanks(cols), 0, c);
    }
  }
}
