/** What erasing, shifting and the graphics attributes do, cell by cell and from their bytes on
    (internal/supervisor/vterm.go, lines 347-358, 396-427, 443-446, 466-487, 563-595, 626-661). */
module TermEdits {
  import opened Utf8
  import opened CsiParams
  import opened TermModel
  import opened TermChunks
  import opened TermInvariant
  import opened TermText
  import opened TermCsi
  import opened TermEffects

  // ---- erasing ----

  /** Erasing columns from..stop-1 blanks them and the other halves of the wide characters cut. */
  predicate Blanked(r: Row, from: int, stop: int, c: int)
    requires 0 <= from < stop <= |r| && 0 <= c < |r|
  {
    from <= c < stop || (c == from - 1 && r[from].continuation) || (c == stop && r[stop].continuation)
  }

  lemma EraseCellEffect(r: Row, from: int, stop: int, c: int)
    requires RowOk(r) && 0 <= from < stop <= |r| && 0 <= c < |r|
    ensures EraseRange(r, from, stop)[c] == if Blanked(r, from, stop, c) then BLANK else r[c]
  {
    if |r| >= 2 {
      EraseRangeEffect(r, from, stop, c);
    } else {
      assert EraseRange(EraseWide(r, 0), 1, 1) == EraseWide(r, 0);
    }
  }

  /** The columns an erase mode names: from the cursor on, up to the cursor, all. */
  function Span(mode: nat, col: int, cols: int): (int, int)
    requires mode <= 2
  {
    if mode == 0 then (col, cols) else if mode == 1 then (0, col + 1) else (0, cols)
  }

  lemma EraseLineCells(s: Screen, cols: int, rows: int, mode: nat, r: nat, c: nat)
    requires Shape(s, cols, rows) && GridOk(s.cells) && r < rows && c < cols
    ensures var s' := EraseLine(s, cols, rows, mode);
            && s'.(cells := s.cells) == s
            && s'.cells[r][c] ==
               if r == s.row && mode <= 2
                   && Blanked(s.cells[r], Span(mode, s.col, cols).0, Span(mode, s.col, cols).1, c) then BLANK
               else s.cells[r][c]
  {
    if mode <= 2 {
      assert RowOk(s.cells[s.row]);
      EraseCellEffect(s.cells[s.row], Span(mode, s.col, cols).0, Span(mode, s.col, cols).1, c);
    }
  }

  lemma PlainErase(s: Screen, cols: int, rows: int, final: char, raw: seq<Byte>, n: nat)
    requires Shape(s, cols, rows) && final in "JK" && Params(raw) == [Min(n, PARAM_MAX)]
    ensures PlainCsi(s, cols, rows, final, raw) ==
            if final == 'K'
                then EraseLine(s, cols, rows, Min(n, PARAM_MAX)) else EraseDisplay(s, cols, rows, Min(n, PARAM_MAX))
  {
  }

  /** K: every cell of the screen after erasing in the cursor's line. */
  lemma EraseLineEffect(t: Term, n: nat, r: nat, c: nat)
    requires Ready(t) && GridOk(Current(t).cells) && |Digits(n)| < SEQUENCE_LIMIT && r < t.rows && c < t.cols
    ensures var s := Current(t).(joinNext := false);
            var s' := Current(Numbered(t, n, 'K'));
            && s'.(cells := s.cells) == s && GridShape(s'.cells, t.cols, t.rows)
            && s'.cells[r][c] ==
               if r == s.row && n <= 2
                   && Blanked(s.cells[r], Span(n, s.col, t.cols).0, Span(n, s.col, t.cols).1, c) then BLANK
               else s.cells[r][c]
  {
    NumberedWritten(t, n, 'K');
    var s := Current(t).(joinNext := false);
    PlainErase(s, t.cols, t.rows, 'K', Digits(n), n);
    EraseLineCells(s, t.cols, t.rows, Min(n, PARAM_MAX), r, c);
  }

  lemma EraseDisplayCells(s: Screen, cols: int, rows: int, mode: nat, r: nat, c: nat)
    requires Shape(s, cols, rows) && GridOk(s.cells) && r < rows && c < cols
    ensures var s' := EraseDisplay(s, cols, rows, mode);
            && s'.(cells := s.cells) == s
            && ((mode == 0 && r > s.row) || (mode == 1 && r < s.row) || mode == 2 ==> s'.cells[r][c] == BLANK)
            && (mode <= 1 && r == s.row ==> s'.cells[r][c] == EraseLine(s, cols, rows, mode).cells[r][c])
            && ((mode == 0 && r < s.row) || (mode == 1 && r > s.row) || mode > 2 ==> s'.cells[r][c] == s.cells[r][c])
  {
    if mode == 1 {
      var cleared := s.(cells := ClearRows(s.cells, 0, s.row, cols));
      assert cleared.cells[s.row] == s.cells[s.row];
    }
  }

  /** J: below, above or all of the screen, with the cursor's line as K does it. */
  lemma EraseDisplayEffect(t: Term, n: nat, r: nat, c: nat)
    requires Ready(t) && GridOk(Current(t).cells) && |Digits(n)| < SEQUENCE_LIMIT && r < t.rows && c < t.cols
    ensures var s := Current(t).(joinNext := false);
            var s' := Current(Numbered(t, n, 'J'));
            && s'.(cells := s.cells) == s && GridShape(s'.cells, t.cols, t.rows)
            && ((n == 0 && r > s.row) || (n == 1 && r < s.row) || n == 2 ==> s'.cells[r][c] == BLANK)
            && (n <= 1 && r == s.row ==>
                  s'.cells[r][c] ==
                  if Blanked(s.cells[r], Span(n, s.col, t.cols).0, Span(n, s.col, t.cols).1, c)
                      then BLANK else s.cells[r][c])
            && ((n == 0 && r < s.row) || (n == 1 && r > s.row) || n > 2 ==> s'.cells[r][c] == s.cells[r][c])
  {
    NumberedWritten(t, n, 'J');
    var s := Current(t).(joinNext := false);
    PlainErase(s, t.cols, t.rows, 'J', Digits(n), n);
    EraseDisplayCells(s, t.cols, t.rows, Min(n, PARAM_MAX), r, c);
    EraseLineCells(s, t.cols, t.rows, Min(n, PARAM_MAX), r, c);
  }

  lemma PlainEraseChars(s: Screen, cols: int, rows: int, raw: seq<Byte>, n: nat)
    requires Shape(s, cols, rows) && Params(raw) == [Min(n, PARAM_MAX)]
    ensures PlainCsi(s, cols, rows, 'X', raw) ==
            WithRow(s, EraseRange(s.cells[s.row], s.col, Min(cols, s.col + Times(n))))
  {
  }

  /** X: so many columns from the cursor on. */
  lemma EraseCharsEffect(t: Term, n: nat, r: nat, c: nat)
    requires Ready(t) && GridOk(Current(t).cells) && |Digits(n)| < SEQUENCE_LIMIT && r < t.rows && c < t.cols
    ensures var s := Current(t).(joinNext := false);
            var s' := Current(Numbered(t, n, 'X'));
            && s'.(cells := s.cells) == s && GridShape(s'.cells, t.cols, t.rows)
            && s'.cells[r][c] ==
               if r == s.row && Blanked(s.cells[r], s.col, Min(t.cols, s.col + Times(n)), c)
                   then BLANK else s.cells[r][c]
  {
    NumberedWritten(t, n, 'X');
    var s := Current(t).(joinNext := false);
    PlainEraseChars(s, t.cols, t.rows, Digits(n), n);
    assert RowOk(s.cells[s.row]);
    EraseCellEffect(s.cells[s.row], s.col, Min(t.cols, s.col + Times(n)), c);
  }

  // ---- shifting characters ----

  /** Repair blanks exactly the cells that have lost their other half. */
  lemma {:induction false} RepairPointwise(r: Row, col: nat, i: nat)
    requires |r| >= 2 && i < |r|
    ensures RepairFrom(r, col)[i] == if i >= col && Orphan(r, i) then BLANK else r[i]
    decreases |r| - col
  {
    if col < |r| {
      var r1 := if Orphan(r, col) then r[col := BLANK] else r;
      RepairPointwise(r1, col + 1, i);
    }
  }

  /** The row with n blanks pushed in at column c, or n cells taken out, before halves are dropped. */
  function Shifted(r: Row, c: int, n: nat, insert: bool): (r': Row)
    requires 0 <= c
    ensures |r'| == |r|
  {
    seq(|r|, i requires 0 <= i < |r| =>
      if i < c then r[i]
      else if insert then (if i < c + n then BLANK else r[i - n])
      else if i + n < |r| then r[i + n] else BLANK)
  }

  lemma ShiftedInsert(r: Row, c: int, n: nat)
    requires 0 <= c <= |r|
    ensures Shifted(r, c, n, true) == InsertChars(r, c, Min(n, |r| - c))
  {
  }

  lemma ShiftedDelete(r: Row, c: int, n: nat)
    requires 0 <= c <= |r|
    ensures Shifted(r, c, n, false) == DeleteChars(r, c, Min(n, |r| - c))
  {
  }

  lemma ShiftedRow(r: Row, c: int, n: nat, insert: bool, i: nat)
    requires 0 <= c <= |r| && i < |r|
    ensures var k := Min(n, |r| - c);
            var row := Shifted(r, c, n, insert);
            Repair(if insert then InsertChars(r, c, k) else DeleteChars(r, c, k))[i] ==
            if |r| >= 2 && Orphan(row, i) then BLANK else row[i]
  {
    ShiftedInsert(r, c, n);
    ShiftedDelete(r, c, n);
    if |r| >= 2 {
      RepairPointwise(Shifted(r, c, n, insert), 0, i);
    }
  }

  lemma ShiftCells(s: Screen, cols: int, rows: int, n: nat, insert: bool, r: nat, c: nat)
    requires Shape(s, cols, rows) && r < rows && c < cols
    ensures var s' := ShiftChars(s, cols, rows, n, insert);
            var row := Shifted(s.cells[s.row], s.col, n, insert);
            && s'.(cells := s.cells) == s
            && s'.cells[r][c] ==
                if r != s.row then s.cells[r][c] else if cols >= 2 && Orphan(row, c) then BLANK else row[c]
  {
    ShiftedRow(s.cells[s.row], s.col, n, insert, c);
  }

  lemma PlainShift(s: Screen, cols: int, rows: int, final: char, raw: seq<Byte>, n: nat)
    requires Shape(s, cols, rows) && final in "@P" && Params(raw) == [Min(n, PARAM_MAX)]
    ensures PlainCsi(s, cols, rows, final, raw) == ShiftChars(s, cols, rows, Times(n), final == '@')
  {
    assert Param(Params(raw), 0, 1) == Times(n);
    if final == '@' {
      assert EditLines(s, cols, rows, '@', Params(raw)) == ShiftChars(s, cols, rows, Times(n), true);
    } else {
      assert EditLines(s, cols, rows, 'P', Params(raw)) == ShiftChars(s, cols, rows, Times(n), false);
    }
  }

  /** @ pushes blanks in at the cursor, P takes cells out; halves of wide characters cut are blanked. */
  lemma ShiftEffect(t: Term, n: nat, final: char, r: nat, c: nat)
    requires Ready(t) && final in "@P" && |Digits(n)| < SEQUENCE_LIMIT && r < t.rows && c < t.cols
    ensures var s := Current(t).(joinNext := false);
            var s' := Current(Numbered(t, n, final));
            var row := Shifted(s.cells[s.row], s.col, Times(n), final == '@');
            && s'.(cells := s.cells) == s && GridShape(s'.cells, t.cols, t.rows)
            && s'.cells[r][c] ==
                if r != s.row then s.cells[r][c] else if t.cols >= 2 && Orphan(row, c) then BLANK else row[c]
  {
    NumberedWritten(t, n, final);
    var s := Current(t).(joinNext := false);
    PlainShift(s, t.cols, t.rows, final, Digits(n), n);
    ShiftCells(s, t.cols, t.rows, Times(n), final == '@', r, c);
  }

  // ---- saving the cursor, and what does nothing ----

  lemma SavePlain(t: Term, final: char)
    requires Ready(t) && final in "su"
    ensures var s := Current(t).(joinNext := false);
            Current(Write(t, Sequence([], final))) ==
            if final == 's' then s.(savedRow := s.row, savedCol := s.col, savedFaint := s.faint)
            else s.(row := s.savedRow, col := s.savedCol, faint := s.savedFaint, pendingWrap := false)
  {
    PlainSequence(t, [], final);
  }

  /** A final byte without a meaning changes nothing. */
  lemma OtherFinals(t: Term, n: nat, final: char)
    requires Ready(t) && '@' <= final <= '~' && final !in "HfABCDG`drJKSTLM@PXmsu" && |Digits(n)| < SEQUENCE_LIMIT
    ensures Current(Numbered(t, n, final)) == Current(t).(joinNext := false)
  {
    NumberedWritten(t, n, final);
  }
}
