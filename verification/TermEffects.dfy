/** What each control character, escape and control sequence does, cell by cell and from its bytes on
    (internal/supervisor/vterm.go, lines 163-187, 259-301, 360-661). */
module TermEffects {
  import opened Utf8
  import opened CsiParams
  import opened TermModel
  import opened TermChunks
  import opened TermInvariant
  import opened TermText
  import opened TermCsi

  predicate Ready(t: Term) {
    TermShape(t) && t.state == Ground && t.utf8Pending == []
  }

  /** Everything but the cells and the cursor. */
  predicate SameSettings(s: Screen, s': Screen) {
    s'.(cells := s.cells, row := s.row, col := s.col) == s
  }

  // ---- moving lines ----

  /** Below the bottom of the region the cursor just moves; on it the region moves up by one line. */
  lemma LineFeedEffect(s: Screen, cols: int, rows: int, i: nat)
    requires Shape(s, cols, rows) && i < rows
    ensures var s' := LineFeed(s, cols, rows);
            && SameSettings(s, s') && s'.col == s.col
            && s'.row == (if s.row == s.scrollBottom || s.row == rows - 1 then s.row else s.row + 1)
            && s'.cells[i] == (if s.row == s.scrollBottom && s.scrollTop <= i <= s.scrollBottom
                               then (if i == s.scrollBottom then Blanks(cols) else s.cells[i + 1])
                               else s.cells[i])
  {
    if s.row == s.scrollBottom {
      ScrollUpEffect(s, cols, rows, s.scrollTop, 1, i);
    }
  }

  lemma ReverseIndexEffect(s: Screen, cols: int, rows: int, i: nat)
    requires Shape(s, cols, rows) && i < rows
    ensures var s' := ReverseIndex(s, cols, rows);
            && SameSettings(s, s') && s'.col == s.col
            && s'.row == (if s.row == s.scrollTop || s.row == 0 then s.row else s.row - 1)
            && s'.cells[i] == (if s.row == s.scrollTop && s.scrollTop <= i <= s.scrollBottom
                               then (if i == s.scrollTop then Blanks(cols) else s.cells[i - 1])
                               else s.cells[i])
  {
    if s.row == s.scrollTop {
      ScrollDownEffect(s, cols, rows, s.scrollTop, 1, i);
    }
  }

  // ---- control characters ----

  /** Return, backspace and tab move within the line and keep every cell; the other controls do nothing. */
  lemma ControlEffect(s: Screen, cols: int, rows: int, b: Byte)
    requires Shape(s, cols, rows) && (b < 0x20 || b == 0x7f) && b != 0x1b
    ensures var s' := ControlChar(s, cols, rows, b);
            && (b == 0x0d ==> s' == s.(joinNext := false, pendingWrap := false, col := 0))
            && (b == 0x08 ==>
                  s' == s.(joinNext := false, pendingWrap := false, col := if s.col == 0 then 0 else s.col - 1))
            && (b in {0x0a, 0x0b, 0x0c} ==> s' == LineFeed(s.(joinNext := false), cols, rows))
            && (b !in {0x08, 0x09, 0x0a, 0x0b, 0x0c, 0x0d} ==> s' == s.(joinNext := false))
  {
  }

  /** A tab goes to the next multiple of eight, or to the last column. */
  lemma TabEffect(s: Screen, cols: int, rows: int)
    requires Shape(s, cols, rows)
    ensures var s' := ControlChar(s, cols, rows, 0x09);
            && s'.(col := s.col) == s.(joinNext := false)
            && (s'.col == cols - 1 || (s'.col % 8 == 0 && s.col < s'.col <= s.col + 8))
            && (s.col / 8 * 8 + 8 < cols ==> s'.col == s.col / 8 * 8 + 8)
  {
  }

  // ---- two-byte escapes ----

  lemma EscapeEffect(t: Term, b: Byte)
    requires Ready(t) && b as char in "78DEM"
    ensures var t' := Write(t, [ESCAPE, b]);
            var s := Current(t).(joinNext := false);
            && Ready(t') && Other(t') == Other(t) && t'.useAlternate == t.useAlternate
            && (b as char == '7' ==> Current(t') == s.(savedRow := s.row, savedCol := s.col, savedFaint := s.faint))
            && (b as char == '8' ==>
                  Current(t') == s.(row := s.savedRow, col := s.savedCol, faint := s.savedFaint, pendingWrap := false))
            && (b as char == 'D' ==> Current(t') == LineFeed(s, t.cols, t.rows))
            && (b as char == 'E' ==> Current(t') == LineFeed(s.(col := 0), t.cols, t.rows))
            && (b as char == 'M' ==> Current(t') == ReverseIndex(s, t.cols, t.rows))
  {
    EscapeWritten(t, b);
  }

  lemma EscapeWritten(t: Term, b: Byte)
    requires Ready(t)
    ensures Write(t, [ESCAPE, b]) == Consume(Consume(t, [ESCAPE]), [b])
  {
    assert t.utf8Pending + [ESCAPE, b] == [ESCAPE] + [b] && t.(utf8Pending := []) == t;
    RunByte(t, ESCAPE, [b]);
    assert [b] + [] == [b];
    RunByte(Consume(t, [ESCAPE]), b, []);
  }

  /** ESC c starts over with two blank screens. */
  lemma ResetEffect(t: Term)
    requires Ready(t)
    ensures var t' := Write(t, [ESCAPE, 'c' as Byte]);
            Ready(t') && !t'.useAlternate && t'.primary == NewTerm(t.cols, t.rows).primary
                && t'.alternate == NewTerm(t.cols, t.rows).alternate
  {
    EscapeWritten(t, 'c' as Byte);
  }

  // ---- control sequences with one number ----

  /** What a count comes to: one if it is missing or zero, at most 65535. */
  function Times(n: nat): nat {
    if n == 0 then 1 else Min(n, PARAM_MAX)
  }

  function Numbered(t: Term, n: nat, final: char): Term
    requires Ready(t) && '@' <= final <= '~'
  {
    Write(t, Sequence(Digits(n), final))
  }

  lemma NumberedWritten(t: Term, n: nat, final: char)
    requires Ready(t) && '@' <= final <= '~' && |Digits(n)| < SEQUENCE_LIMIT
    ensures var t' := Numbered(t, n, final);
            && Ready(t') && Other(t') == Other(t) && t'.useAlternate == t.useAlternate
            && Current(t') == PlainCsi(Current(t).(joinNext := false), t.cols, t.rows, final, Digits(n))
            && Params(Digits(n)) == [Min(n, PARAM_MAX)] && Digits(n) != []
  {
    ParamsOfNumber(n);
    PlainSequence(t, Digits(n), final);
  }

  lemma PlainMoves(s: Screen, cols: int, rows: int, final: char, raw: seq<Byte>)
    requires Shape(s, cols, rows) && final in "HfABCDG`d"
    ensures PlainCsi(s, cols, rows, final, raw) ==
            s.(pendingWrap := false, joinNext := false,
               row := TargetRow(s.row, rows, final, Params(raw)), col := TargetCol(s.col, cols, final, Params(raw)))
  {
  }

  /** Where the cursor is after each of the seven movements, cut off at the edges. */
  predicate Lands(row: int, col: int, cols: int, rows: int, n: nat, final: char, row': int, col': int) {
    && (final in "ABd" ==> col' == col) && (final in "CDG`" ==> row' == row)
    && (final == 'A' ==> row' == if Times(n) <= row then row - Times(n) else 0)
    && (final == 'B' ==> row' == if row + Times(n) < rows then row + Times(n) else rows - 1)
    && (final == 'C' ==> col' == if col + Times(n) < cols then col + Times(n) else cols - 1)
    && (final == 'D' ==> col' == if Times(n) <= col then col - Times(n) else 0)
    && (final in "G`" ==> col' == if Times(n) <= cols then Times(n) - 1 else cols - 1)
    && (final == 'd' ==> row' == if Times(n) <= rows then Times(n) - 1 else rows - 1)
  }

  lemma TargetsLand(row: int, col: int, cols: int, rows: int, n: nat, final: char)
    requires 0 <= row < rows && 0 <= col < cols && final in "ABCDG`d"
    ensures var params := [Min(n, PARAM_MAX)];
            Lands(row, col, cols, rows, n, final, TargetRow(row, rows, final, params),
                  TargetCol(col, cols, final, params))
  {
  }

  /** The seven cursor movements: the cursor lands where it should, and no cell changes. */
  lemma MoveEffect(t: Term, n: nat, final: char)
    requires Ready(t) && final in "ABCDG`d" && |Digits(n)| < SEQUENCE_LIMIT
    ensures var s := Current(t);
            var s' := Current(Numbered(t, n, final));
            && s'.(row := s.row, col := s.col) == s.(pendingWrap := false, joinNext := false)
            && Lands(s.row, s.col, t.cols, t.rows, n, final, s'.row, s'.col)
  {
    NumberedWritten(t, n, final);
    PlainMoves(Current(t).(joinNext := false), t.cols, t.rows, final, Digits(n));
    TargetsLand(Current(t).row, Current(t).col, t.cols, t.rows, n, final);
  }

  lemma TwoTargets(row: int, col: int, cols: int, rows: int, a: nat, b: nat, final: char)
    requires 0 <= row < rows && 0 <= col < cols && final in "Hf"
    ensures var params := [Min(a, PARAM_MAX), Min(b, PARAM_MAX)];
            && TargetRow(row, rows, final, params) == (if Times(a) <= rows then Times(a) - 1 else rows - 1)
            && TargetCol(col, cols, final, params) == if Times(b) <= cols then Times(b) - 1 else cols - 1
  {
  }

  /** H and f are the same. */
  lemma AddressEffect(t: Term, row: nat, col: nat, final: char)
    requires Ready(t) && final in "Hf" && |TwoNumbers(row, col)| < SEQUENCE_LIMIT
    ensures var s := Current(t);
            Current(Write(t, Sequence(TwoNumbers(row, col), final))) ==
            s.(pendingWrap := false, joinNext := false,
               row := if Times(row) <= t.rows then Times(row) - 1 else t.rows - 1,
               col := if Times(col) <= t.cols then Times(col) - 1 else t.cols - 1)
  {
    ParamsOfTwo(row, col);
    PlainSequence(t, TwoNumbers(row, col), final);
    PlainMoves(Current(t).(joinNext := false), t.cols, t.rows, final, TwoNumbers(row, col));
    TwoTargets(Current(t).row, Current(t).col, t.cols, t.rows, row, col, final);
  }

  lemma RegionSet(s: Screen, cols: int, rows: int, a: nat, b: nat)
    requires Shape(s, cols, rows)
    ensures var first := Min(Times(a), rows) - 1;
            var last := if b == 0 then rows - 1 else Min(Times(b), rows) - 1;
            SetScrollRegion(s, cols, rows, [Min(a, PARAM_MAX), Min(b, PARAM_MAX)]) ==
            if first < last then s.(scrollTop := first, scrollBottom := last, row := 0, col := 0) else s
  {
  }

  lemma PlainRegion(s: Screen, cols: int, rows: int, raw: seq<Byte>)
    requires Shape(s, cols, rows)
    ensures PlainCsi(s, cols, rows, 'r', raw) ==
              SetScrollRegion(s.(pendingWrap := false, joinNext := false), cols, rows, Params(raw))
  {
  }

  /** Setting the scroll region moves the cursor home; a region of less than two lines is refused. The
      last line is the default for the bottom, and the limit. */
  lemma RegionEffect(t: Term, top: nat, bottom: nat)
    requires Ready(t) && |TwoNumbers(top, bottom)| < SEQUENCE_LIMIT
    ensures var s := Current(t).(pendingWrap := false, joinNext := false);
            var s' := Current(Write(t, Sequence(TwoNumbers(top, bottom), 'r')));
            var first := Min(Times(top), t.rows) - 1;
            var last := if bottom == 0 then t.rows - 1 else Min(Times(bottom), t.rows) - 1;
            s' == if first < last then s.(scrollTop := first, scrollBottom := last, row := 0, col := 0) else s
  {
    ParamsOfTwo(top, bottom);
    PlainSequence(t, TwoNumbers(top, bottom), 'r');
    PlainRegion(Current(t).(joinNext := false), t.cols, t.rows, TwoNumbers(top, bottom));
    RegionSet(Current(t).(pendingWrap := false, joinNext := false), t.cols, t.rows, top, bottom);
  }

  lemma PlainLinesUp(s: Screen, cols: int, rows: int, final: char, raw: seq<Byte>, n: nat)
    requires Shape(s, cols, rows) && final in "SM" && Params(raw) == [Min(n, PARAM_MAX)]
    ensures PlainCsi(s, cols, rows, final, raw) ==
              ScrollUpAt(s, cols, rows, if final == 'S' then s.scrollTop else s.row, Times(n))
  {
  }

  lemma PlainLinesDown(s: Screen, cols: int, rows: int, final: char, raw: seq<Byte>, n: nat)
    requires Shape(s, cols, rows) && final in "TL" && Params(raw) == [Min(n, PARAM_MAX)]
    ensures PlainCsi(s, cols, rows, final, raw) ==
              ScrollDownAt(s, cols, rows, if final == 'T' then s.scrollTop else s.row, Times(n))
  {
  }

  /** Which line row i shows after lines were moved up or down from row `from` of the region on. */
  predicate LineMoved(s: Screen, s': Screen, cols: nat, up: bool, from: int, n: nat, i: nat)
    requires i < |s.cells| == |s'.cells| && 0 <= s.scrollTop && s.scrollBottom < |s.cells|
  {
    if !(s.scrollTop <= from <= i <= s.scrollBottom) then s'.cells[i] == s.cells[i]
    else if up then s'.cells[i] == if i + n <= s.scrollBottom then s.cells[i + n] else Blanks(cols)
    else s'.cells[i] == if i - n >= from then s.cells[i - n] else Blanks(cols)
  }

  /** S moves the lines of the region up, M those from the cursor's line on. */
  lemma LinesUpEffect(t: Term, n: nat, final: char, i: nat)
    requires Ready(t) && final in "SM" && |Digits(n)| < SEQUENCE_LIMIT && i < t.rows
    ensures var s := Current(t).(joinNext := false);
            var s' := Current(Numbered(t, n, final));
            && s'.(cells := s.cells) == s && |s'.cells| == |s.cells|
            && LineMoved(s, s', t.cols, true, if final == 'S' then s.scrollTop else s.row, Times(n), i)
  {
    NumberedWritten(t, n, final);
    var s := Current(t).(joinNext := false);
    PlainLinesUp(s, t.cols, t.rows, final, Digits(n), n);
    ScrollUpEffect(s, t.cols, t.rows, if final == 'S' then s.scrollTop else s.row, Times(n), i);
  }

  /** T moves the lines of the region down, L those from the cursor's line on. */
  lemma LinesDownEffect(t: Term, n: nat, final: char, i: nat)
    requires Ready(t) && final in "TL" && |Digits(n)| < SEQUENCE_LIMIT && i < t.rows
    ensures var s := Current(t).(joinNext := false);
            var s' := Current(Numbered(t, n, final));
            && s'.(cells := s.cells) == s && |s'.cells| == |s.cells|
            && LineMoved(s, s', t.cols, false, if final == 'T' then s.scrollTop else s.row, Times(n), i)
  {
    NumberedWritten(t, n, final);
    var s := Current(t).(joinNext := false);
    PlainLinesDown(s, t.cols, t.rows, final, Digits(n), n);
    ScrollDownEffect(s, t.cols, t.rows, if final == 'T' then s.scrollTop else s.row, Times(n), i);
  }

  lemma ScrollUpEffect(s: Screen, cols: int, rows: int, from: int, n: nat, i: nat)
    requires Shape(s, cols, rows) && i < rows
    ensures var s' := ScrollUpAt(s, cols, rows, from, n);
            && s'.(cells := s.cells) == s
            && LineMoved(s, s', cols, true, from, n, i)
  {
  }

  lemma ScrollDownEffect(s: Screen, cols: int, rows: int, from: int, n: nat, i: nat)
    requires Shape(s, cols, rows) && i < rows
    ensures var s' := ScrollDownAt(s, cols, rows, from, n);
            && s'.(cells := s.cells) == s
            && LineMoved(s, s', cols, false, from, n, i)
  {
  }
}
