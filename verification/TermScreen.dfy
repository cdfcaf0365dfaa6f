/** One screen of the terminal as the code holds it: a list of separately allocated rows, shifted by
    moving row references (internal/supervisor/vterm.go, lines 39-46, 286-358, 428-487, 563-643). */
module TermScreen {
  import opened Utf8
  import opened CsiParams
  import opened TermModel
  import opened TermRows

  /** The row references hold exactly the cells of a grid. */
  ghost predicate Holds(rows: seq<array<Cell>>, g: Grid)
    reads rows
  {
    |rows| == |g| && forall i :: 0 <= i < |rows| ==> rows[i][..] == g[i]
  }

  /** No two rows share storage. */
  ghost predicate Distinct<T>(rows: seq<T>) {
    forall i, j :: 0 <= i < j < |rows| ==> rows[i] != rows[j]
  }

  /** Shifting references, with new ones entering, never makes two of them equal. */
  lemma SpliceDistinct<T>(s: seq<T>, from: int, bottom: int, entering: seq<T>)
    requires 0 <= from <= bottom < |s| && |entering| <= bottom - from + 1
    requires Distinct(s) && Distinct(entering) && forall i :: 0 <= i < |entering| ==> entering[i] !in s
    ensures Distinct(SpliceUp(s, from, bottom, entering))
    ensures Distinct(SpliceDown(s, from, bottom, entering))
  {
    var up := SpliceUp(s, from, bottom, entering);
    forall i, j | 0 <= i < j < |s|
      ensures up[i] != up[j]
    {
    }
    var down := SpliceDown(s, from, bottom, entering);
    forall i, j | 0 <= i < j < |s|
      ensures down[i] != down[j]
    {
    }
  }

  ghost function Objects(rows: seq<array<Cell>>): (s: set<object>) {
    set i | 0 <= i < |rows| :: rows[i] as object
  }

  method NewRows(n: nat, cols: nat) returns (rows: seq<array<Cell>>)
    ensures Distinct(rows) && Holds(rows, BlankRows(n, cols))
    ensures forall i :: 0 <= i < |rows| ==> fresh(rows[i])
  {
    rows := [];
    for k := 0 to n
      invariant |rows| == k && Distinct(rows)
      invariant forall i :: 0 <= i < k ==> fresh(rows[i]) && rows[i][..] == Blanks(cols)
    {
      var row := new Cell[cols](_ => BLANK);
      assert row[..] == Blanks(cols);
      rows := rows + [row];
    }
  }

  method LeadingCodes(fields: seq<seq<Byte>>) returns (codes: seq<nat>)
    ensures codes == SgrCodes(fields)
  {
    codes := [];
    for i := 0 to |fields|
      invariant codes == SgrCodes(fields)[..i]
    {
      var p := ParseParams(Cut(fields[i], COLON));
      codes := codes + [p[0]];
    }
  }

  /** The attribute loop over the fields of one graphics sequence. */
  method ScanGraphics(raw: seq<Byte>, before: bool) returns (faint: bool)
    ensures faint == Graphics(raw, before)
  {
    faint := before;
    var fields := Split(raw, SEMICOLON);
    var codes := LeadingCodes(fields);
    var i := 0;
    while i < |codes|
      invariant 0 <= i
      invariant SgrFaint(fields, codes, i, faint) == Graphics(raw, before)
      decreases |codes| - i
    {
      var p := codes[i];
      var skip := FieldsTaken(fields, codes, i);
      if p == 0 || p == 22 {
        faint := false;
      } else if p == 2 {
        faint := true;
      }
      i := i + skip;
    }
  }

  /** How many fields the attribute at field i takes: an extended colour takes its arguments along. */
  method FieldsTaken(fields: seq<seq<Byte>>, codes: seq<nat>, i: nat) returns (skip: nat)
    requires i < |codes| == |fields|
    ensures skip == SgrSkip(fields, codes, i)
  {
    var p := codes[i];
    skip := 0;
    if (p == 38 || p == 48 || p == 58) && COLON !in fields[i] && i + 1 < |codes| {
      if codes[i + 1] == 5 {
        skip := 2;
      } else if codes[i + 1] == 2 {
        skip := 4;
      }
    }
    skip := skip + 1;
  }

  /** Shifting references shifts the grid they hold. */
  lemma SpliceUpHolds(cells: seq<array<Cell>>, g: Grid, from: int, bottom: int, entering: seq<array<Cell>>, rows: Grid)
    requires Holds(cells, g) && Holds(entering, rows)
    requires 0 <= from <= bottom < |cells| && |entering| <= bottom - from + 1
    ensures Holds(SpliceUp(cells, from, bottom, entering), SpliceUp(g, from, bottom, rows))
  {
    var shifted, grid := SpliceUp(cells, from, bottom, entering), SpliceUp(g, from, bottom, rows);
    forall i | 0 <= i < |shifted|
      ensures shifted[i][..] == grid[i]
    {
    }
  }

  lemma SpliceDownHolds(cells: seq<array<Cell>>, g: Grid, from: int, bottom: int, entering: seq<array<Cell>>,
                        rows: Grid)
    requires Holds(cells, g) && Holds(entering, rows)
    requires 0 <= from <= bottom < |cells| && |entering| <= bottom - from + 1
    ensures Holds(SpliceDown(cells, from, bottom, entering), SpliceDown(g, from, bottom, rows))
  {
    var shifted, grid := SpliceDown(cells, from, bottom, entering), SpliceDown(g, from, bottom, rows);
    forall i | 0 <= i < |shifted|
      ensures shifted[i][..] == grid[i]
    {
    }
  }

  /** Moves the references of rows from..bottom up by n and allocates blank rows below them. */
  method ShiftRowsUp(cells: seq<array<Cell>>, ghost g: Grid, from: int, bottom: int, n: int, cols: nat)
    returns (shifted: seq<array<Cell>>)
    requires Distinct(cells) && Holds(cells, g) && 0 <= from <= bottom < |cells| && 0 <= n <= bottom - from + 1
    ensures Distinct(shifted) && Holds(shifted, ShiftUp(g, from, bottom, n, cols))
    ensures forall i :: 0 <= i < |shifted| ==> shifted[i] in cells || fresh(shifted[i])
  {
    var blanks := NewRows(n, cols);
    shifted := SpliceUp(cells, from, bottom, blanks);
    SpliceDistinct(cells, from, bottom, blanks);
    SpliceUpHolds(cells, g, from, bottom, blanks, BlankRows(n, cols));
  }

  method ShiftRowsDown(cells: seq<array<Cell>>, ghost g: Grid, from: int, bottom: int, n: int, cols: nat)
    returns (shifted: seq<array<Cell>>)
    requires Distinct(cells) && Holds(cells, g) && 0 <= from <= bottom < |cells| && 0 <= n <= bottom - from + 1
    ensures Distinct(shifted) && Holds(shifted, ShiftDown(g, from, bottom, n, cols))
    ensures forall i :: 0 <= i < |shifted| ==> shifted[i] in cells || fresh(shifted[i])
  {
    var blanks := NewRows(n, cols);
    shifted := SpliceDown(cells, from, bottom, blanks);
    SpliceDistinct(cells, from, bottom, blanks);
    SpliceDownHolds(cells, g, from, bottom, blanks, BlankRows(n, cols));
  }

  /** Clears the rows from..stop-1 in place. */
  method ClearEach(cells: seq<array<Cell>>, ghost g: Grid, from: int, stop: int, cols: nat)
    requires Distinct(cells) && Holds(cells, g) && 0 <= from && stop <= |cells|
    requires forall i :: 0 <= i < |g| ==> |g[i]| == cols
    modifies cells
    ensures Holds(cells, ClearRows(g, from, stop, cols))
  {
    assert ClearRows(g, from, from, cols) == g;
    var r := from;
    ghost var done := g;
    while r < stop
      invariant from <= r && (r <= stop || r == from)
      invariant done == ClearRows(g, from, r, cols) && Holds(cells, done)
    {
      ClearAt(cells, done, r, cols);
      done := done[r := Blanks(cols)];
      r := r + 1;
      assert done == ClearRows(g, from, r, cols);
    }
    assert stop < from ==> ClearRows(g, from, stop, cols) == g;
  }

  // Edits of one row in the list: the other rows are other arrays, so only that row of the grid changes.

  method ClearAt(cells: seq<array<Cell>>, ghost g: Grid, r: int, cols: nat)
    requires Distinct(cells) && Holds(cells, g) && 0 <= r < |cells| && |g[r]| == cols
    modifies cells[r]
    ensures Holds(cells, g[r := Blanks(cols)])
  {
    assert cells[r][..] == g[r];
    ClearRow(cells[r]);
  }

  method ShiftAt(cells: seq<array<Cell>>, ghost g: Grid, r: int, c: int, n: int, insert: bool)
    requires Distinct(cells) && Holds(cells, g) && 0 <= r < |cells| && 0 <= c <= c + n <= cells[r].Length
    modifies cells[r]
    ensures Holds(cells, g[r := Repair(if insert then InsertChars(g[r], c, n) else DeleteChars(g[r], c, n))])
  {
    if insert {
      InsertCells(cells[r], c, n);
    } else {
      DeleteCells(cells[r], c, n);
    }
    RepairWideRow(cells[r]);
  }

  method PrintAt(cells: seq<array<Cell>>, ghost g: Grid, r: int, col: int, ch: Rune, w: nat, faint: bool)
    requires Distinct(cells) && Holds(cells, g) && 0 <= r < |cells|
    requires 1 <= w <= 2 && 0 <= col && col + w <= cells[r].Length
    modifies cells[r]
    ensures Holds(cells, g[r := PrintInto(g[r], col, ch, w, faint)])
  {
    PrintCells(cells[r], col, ch, w, faint);
  }

  method EraseAt(cells: seq<array<Cell>>, ghost g: Grid, r: int, from: int, stop: int)
    requires Distinct(cells) && Holds(cells, g) && 0 <= r < |cells|
    modifies cells[r]
    ensures Holds(cells, g[r := EraseRange(g[r], from, stop)])
  {
    EraseCells(cells[r], from, stop);
  }

  method AppendAt(cells: seq<array<Cell>>, ghost g: Grid, r: int, c: int, ch: Rune)
    requires Distinct(cells) && Holds(cells, g) && 0 <= r < |cells| && 0 <= c < cells[r].Length
    modifies cells[r]
    ensures Holds(cells, g[r := g[r][c := g[r][c].(text := g[r][c].text + [ch])]])
  {
    AppendRune(cells[r], c, ch);
  }

  class ScreenBuffer {
    var cells: seq<array<Cell>>
    var row: int
    var col: int
    var savedRow: int
    var savedCol: int
    var scrollTop: int
    var scrollBottom: int
    var savedFaint: bool
    var joinNext: bool
    var pendingWrap: bool
    var faint: bool
    ghost var grid: Grid
    ghost var Repr: set<object>

    ghost function View(): (s: Screen)
      reads this
    {
      Screen(grid, row, col, savedRow, savedCol, scrollTop, scrollBottom, savedFaint, joinNext, pendingWrap, faint)
    }

    ghost predicate Valid(cols: int, rows: int)
      reads this, Repr
    {
      && this in Repr && (forall i :: 0 <= i < |cells| ==> cells[i] in Repr)
      && Shape(View(), cols, rows) && Distinct(cells) && Holds(cells, grid)
    }

    constructor (cols: nat, rows: nat)
      requires cols >= 1 && rows >= 1
      ensures Valid(cols, rows) && View() == NewScreen(cols, rows)
      ensures fresh(Repr)
    {
      row, col, savedRow, savedCol, scrollTop, scrollBottom := 0, 0, 0, 0, 0, rows - 1;
      savedFaint, joinNext, pendingWrap, faint := false, false, false, false;
      var blanks := NewRows(rows, cols);
      cells, grid := blanks, BlankRows(rows, cols);
      Repr := {this} + Objects(blanks);
    }

    /** Takes over a list of rows, some of them new. */
    method UseRows(shifted: seq<array<Cell>>, ghost g: Grid, cols: int, rows: int)
      requires Valid(cols, rows) && Distinct(shifted) && Holds(shifted, g) && GridShape(g, cols, rows)
      modifies `cells, `grid, `Repr
      ensures Valid(cols, rows) && Repr == old(Repr) + Objects(shifted) && View() == old(View()).(cells := g)
    {
      cells, grid := shifted, g;
      Repr := Repr + Objects(shifted);
    }

    method ScrollUpAt(cols: int, rows: int, from: int, n: nat)
      requires Valid(cols, rows)
      modifies `cells, `grid, `Repr
      ensures Valid(cols, rows)
      ensures fresh(Repr - old(Repr))
      ensures View() == TermModel.ScrollUpAt(old(View()), cols, rows, from, n)
    {
      if from < scrollTop || from > scrollBottom {
        return;
      }
      var k := Min(n, scrollBottom - from + 1);
      var shifted := ShiftRowsUp(cells, grid, from, scrollBottom, k, cols);
      UseRows(shifted, ShiftUp(grid, from, scrollBottom, k, cols), cols, rows);
    }

    method ScrollDownAt(cols: int, rows: int, from: int, n: nat)
      requires Valid(cols, rows)
      modifies `cells, `grid, `Repr
      ensures Valid(cols, rows)
      ensures fresh(Repr - old(Repr))
      ensures View() == TermModel.ScrollDownAt(old(View()), cols, rows, from, n)
    {
      if from < scrollTop || from > scrollBottom {
        return;
      }
      var k := Min(n, scrollBottom - from + 1);
      var shifted := ShiftRowsDown(cells, grid, from, scrollBottom, k, cols);
      UseRows(shifted, ShiftDown(grid, from, scrollBottom, k, cols), cols, rows);
    }

    method LineFeed(cols: int, rows: int)
      requires Valid(cols, rows)
      modifies `cells, `grid, `Repr, `row
      ensures Valid(cols, rows)
      ensures fresh(Repr - old(Repr))
      ensures View() == TermModel.LineFeed(old(View()), cols, rows)
    {
      if row == scrollBottom {
        ScrollUpAt(cols, rows, scrollTop, 1);
      } else if row < rows - 1 {
        row := row + 1;
      }
    }

    method ReverseIndex(cols: int, rows: int)
      requires Valid(cols, rows)
      modifies `cells, `grid, `Repr, `row
      ensures Valid(cols, rows)
      ensures fresh(Repr - old(Repr))
      ensures View() == TermModel.ReverseIndex(old(View()), cols, rows)
    {
      if row == scrollTop {
        ScrollDownAt(cols, rows, scrollTop, 1);
      } else if row > 0 {
        row := row - 1;
      }
    }

    method FindPrevious(cols: int, rows: int) returns (c: int)
      requires Valid(cols, rows)
      ensures c == PreviousCell(View())
    {
      c := col - 1;
      if pendingWrap {
        c := col;
      }
      if c >= 0 && cells[row][c].continuation {
        c := c - 1;
      }
    }

    method Attach(cols: int, rows: int, ch: Rune)
      requires Valid(cols, rows)
      modifies `joinNext, `grid, cells
      ensures Valid(cols, rows) && cells == old(cells)
      ensures View() == TermModel.Attach(old(View()), cols, rows, ch)
    {
      var c := FindPrevious(cols, rows);
      if c >= 0 {
        AppendAt(cells, grid, row, c, ch);
        grid := AppendText(View(), c, ch).cells;
      }
      joinNext := ch == JOINER;
    }

    method PrintHere(cols: int, rows: int, ch: Rune, w: nat)
      requires Valid(cols, rows) && 1 <= w <= 2 && col + w <= cols
      modifies `grid, cells
      ensures Valid(cols, rows)
      ensures View() == WithRow(old(View()), PrintInto(old(View()).cells[row], col, ch, w, faint))
    {
      PrintAt(cells, grid, row, col, ch, w, faint);
      grid := grid[row := PrintInto(grid[row], col, ch, w, faint)];
    }

    method Place(cols: int, rows: int, ch: Rune, w: nat)
      requires Valid(cols, rows) && 1 <= w <= 2 && col + w <= cols
      modifies `col, `pendingWrap, `grid, cells
      ensures Valid(cols, rows)
      ensures View() == TermModel.Place(old(View()), cols, rows, ch, w)
    {
      PrintHere(cols, rows, ch, w);
      col := col + w;
      if col >= cols {
        col, pendingWrap := cols - 1, true;
      }
    }

    /** Takes the two line wraps a character may need. */
    method Settle(cols: int, rows: int, w: nat)
      requires Valid(cols, rows) && 1 <= w <= 2 && w <= cols
      modifies `cells, `grid, `Repr, `row, `col, `pendingWrap
      ensures Valid(cols, rows)
      ensures fresh(Repr - old(Repr))
      ensures View() == TermModel.Settle(old(View()), cols, rows, w)
    {
      if pendingWrap {
        col, pendingWrap := 0, false;
        LineFeed(cols, rows);
      }
      if w == 2 && col == cols - 1 {
        col := 0;
        LineFeed(cols, rows);
      }
    }

    method Put(cols: int, rows: int, ch: Rune)
      requires Valid(cols, rows)
      modifies Repr
      ensures Valid(cols, rows)
      ensures fresh(Repr - old(Repr))
      ensures View() == TermModel.Put(old(View()), cols, rows, ch)
    {
      var w := RuneWidth(ch);
      if w == 0 || joinNext {
        Attach(cols, rows, ch);
        return;
      }
      if cols < 2 && w == 2 {
        w := 1;
      }
      Settle(cols, rows, w);
      Place(cols, rows, ch, w);
    }

    method ControlChar(cols: int, rows: int, b: Byte)
      requires Valid(cols, rows)
      modifies Repr
      ensures Valid(cols, rows)
      ensures fresh(Repr - old(Repr))
      ensures View() == TermModel.ControlChar(old(View()), cols, rows, b)
    {
      joinNext := false;
      if b == 0x0d {
        col, pendingWrap := 0, false;
      } else if b == 0x0a || b == 0x0b || b == 0x0c {
        LineFeed(cols, rows);
      } else if b == 0x08 {
        pendingWrap := false;
        if col > 0 {
          col := col - 1;
        }
      } else if b == 0x09 {
        col := Min(cols - 1, (col / 8 + 1) * 8);
      } else if b >= 0x20 && b != 0x7f {
        Put(cols, rows, b);
      }
    }

    method EraseLine(cols: int, rows: int, mode: nat)
      requires Valid(cols, rows)
      modifies `grid, cells
      ensures Valid(cols, rows)
      ensures View() == TermModel.EraseLine(old(View()), cols, rows, mode)
    {
      var start, end := col, cols;
      if mode == 1 {
        start, end := 0, col + 1;
      } else if mode == 2 {
        start, end := 0, cols;
      } else if mode != 0 {
        return;
      }
      EraseAt(cells, grid, row, start, end);
      grid := grid[row := EraseRange(grid[row], start, end)];
    }

    method ClearLines(cols: int, rows: int, from: int, stop: int)
      requires Valid(cols, rows) && 0 <= from && stop <= rows
      modifies `grid, cells
      ensures Valid(cols, rows)
      ensures View() == old(View()).(cells := ClearRows(old(View()).cells, from, stop, cols))
    {
      ClearEach(cells, grid, from, stop, cols);
      grid := ClearRows(grid, from, stop, cols);
    }

    method EraseDisplay(cols: int, rows: int, mode: nat)
      requires Valid(cols, rows)
      modifies `grid, cells
      ensures Valid(cols, rows)
      ensures View() == TermModel.EraseDisplay(old(View()), cols, rows, mode)
    {
      if mode == 0 {
        EraseLine(cols, rows, 0);
        ClearLines(cols, rows, row + 1, rows);
      } else if mode == 1 {
        ClearLines(cols, rows, 0, row);
        EraseLine(cols, rows, 1);
      } else if mode == 2 {
        ClearLines(cols, rows, 0, rows);
      }
    }

    method ShiftChars(cols: int, rows: int, n: nat, insert: bool)
      requires Valid(cols, rows)
      modifies `grid, cells
      ensures Valid(cols, rows)
      ensures View() == TermModel.ShiftChars(old(View()), cols, rows, n, insert)
    {
      ShiftAt(cells, grid, row, col, Min(n, cols - col), insert);
      grid := TermModel.ShiftChars(View(), cols, rows, n, insert).cells;
    }

    method EraseChars(cols: int, rows: int, n: nat)
      requires Valid(cols, rows)
      modifies `grid, cells
      ensures Valid(cols, rows)
      ensures View() == WithRow(old(View()), EraseRange(old(View()).cells[row], col, Min(cols, col + n)))
    {
      EraseAt(cells, grid, row, col, Min(cols, col + n));
      grid := grid[row := EraseRange(grid[row], col, Min(cols, col + n))];
    }

    method SaveCursor()
      modifies `savedRow, `savedCol, `savedFaint
      ensures View() == TermModel.SaveCursor(old(View()))
    {
      savedRow, savedCol, savedFaint := row, col, faint;
    }

    method RestoreCursor(cols: int, rows: int)
      modifies `row, `col, `faint
      ensures View() == TermModel.RestoreCursor(old(View()), cols, rows)
    {
      row, col, faint := Clamp(savedRow, 0, rows - 1), Clamp(savedCol, 0, cols - 1), savedFaint;
    }

    method MoveCursor(cols: int, rows: int, final: char, params: seq<nat>)
      requires Valid(cols, rows)
      modifies `row, `col
      ensures Valid(cols, rows)
      ensures View() == TermModel.MoveCursor(old(View()), cols, rows, final, params)
    {
      row, col := TargetRow(row, rows, final, params), TargetCol(col, cols, final, params);
    }

    method SetScrollRegion(cols: int, rows: int, params: seq<nat>)
      requires Valid(cols, rows)
      modifies `row, `col, `scrollTop, `scrollBottom
      ensures Valid(cols, rows)
      ensures View() == TermModel.SetScrollRegion(old(View()), cols, rows, params)
    {
      var top := Clamp(Param(params, 0, 1) - 1, 0, rows - 1);
      var bottom := Clamp(Param(params, 1, rows) - 1, 0, rows - 1);
      if top < bottom {
        scrollTop, scrollBottom, row, col := top, bottom, 0, 0;
      }
    }

    method EditLines(cols: int, rows: int, final: char, params: seq<nat>)
      requires Valid(cols, rows)
      modifies `cells, `grid, `Repr, cells
      ensures Valid(cols, rows)
      ensures fresh(Repr - old(Repr))
      ensures View() == TermModel.EditLines(old(View()), cols, rows, final, params)
    {
      var n := Param(params, 0, 1);
      if final == 'J' {
        EraseDisplay(cols, rows, Param(params, 0, 0));
      } else if final == 'K' {
        EraseLine(cols, rows, Param(params, 0, 0));
      } else if final == 'S' {
        ScrollUpAt(cols, rows, scrollTop, n);
      } else if final == 'T' {
        ScrollDownAt(cols, rows, scrollTop, n);
      } else if final == 'L' {
        ScrollDownAt(cols, rows, row, n);
      } else if final == 'M' {
        ScrollUpAt(cols, rows, row, n);
      } else if final == '@' {
        ShiftChars(cols, rows, n, true);
      } else if final == 'P' {
        ShiftChars(cols, rows, n, false);
      } else if final == 'X' {
        EraseChars(cols, rows, n);
      }
    }

    method CsiAction(cols: int, rows: int, final: char, raw: seq<Byte>)
      requires Valid(cols, rows)
      modifies Repr
      ensures Valid(cols, rows)
      ensures fresh(Repr - old(Repr))
      ensures View() == TermModel.CsiAction(old(View()), cols, rows, final, raw)
    {
      if final == 'm' {
        faint := ScanGraphics(raw, faint);
      } else if final == 's' {
        if raw == [] {
          SaveCursor();
        }
      } else if final == 'u' {
        if raw == [] {
          RestoreCursor(cols, rows);
        }
      } else {
        var params := ParseParams(raw);
        if final == 'r' {
          SetScrollRegion(cols, rows, params);
        } else if Repositions(final) {
          MoveCursor(cols, rows, final, params);
        } else {
          EditLines(cols, rows, final, params);
        }
      }
    }

    method ExecutePlain(cols: int, rows: int, final: char, raw: seq<Byte>)
      requires Valid(cols, rows)
      modifies Repr
      ensures Valid(cols, rows)
      ensures fresh(Repr - old(Repr))
      ensures View() == PlainCsi(old(View()), cols, rows, final, raw)
    {
      if Repositions(final) {
        pendingWrap, joinNext := false, false;
      }
      CsiAction(cols, rows, final, raw);
    }

    method EscapeScreen(cols: int, rows: int, b: char)
      requires Valid(cols, rows)
      modifies Repr
      ensures Valid(cols, rows)
      ensures fresh(Repr - old(Repr))
      ensures View() == TermModel.EscapeScreen(old(View()), cols, rows, b)
    {
      if b == '7' {
        SaveCursor();
      } else if b == '8' {
        RestoreCursor(cols, rows);
        pendingWrap := false;
      } else if b == 'D' {
        LineFeed(cols, rows);
      } else if b == 'E' {
        col := 0;
        LineFeed(cols, rows);
      } else if b == 'M' {
        ReverseIndex(cols, rows);
      }
    }

    method ResizeCells(cols: nat, rows: nat)
      requires Distinct(cells) && Holds(cells, grid)
      modifies `cells, `grid, `Repr
      ensures Distinct(cells) && Holds(cells, grid) && grid == ResizeGrid(old(grid), cols, rows)
      ensures (forall i :: 0 <= i < |cells| ==> cells[i] in Repr) && old(Repr) <= Repr && fresh(Repr - old(Repr))
    {
      var resized := ResizedRows(cells, grid, cols, rows);
      cells, grid := resized, ResizeGrid(grid, cols, rows);
      Repr := Repr + Objects(resized);
    }

    method ResizeTo(cols: nat, rows: nat)
      requires cols >= 1 && rows >= 1 && this in Repr && Distinct(cells) && Holds(cells, grid)
      modifies this
      ensures Valid(cols, rows)
      ensures fresh(Repr - old(Repr))
      ensures View() == ResizeScreen(old(View()), cols, rows)
    {
      ResizeCells(cols, rows);
      row, col := Clamp(row, 0, rows - 1), Clamp(col, 0, cols - 1);
      savedRow, savedCol := Clamp(savedRow, 0, rows - 1), Clamp(savedCol, 0, cols - 1);
      scrollTop, scrollBottom, pendingWrap := 0, rows - 1, false;
    }
  }

  method ResizedRows(cells: seq<array<Cell>>, ghost g: Grid, cols: nat, rows: nat) returns (resized: seq<array<Cell>>)
    requires Holds(cells, g)
    ensures Distinct(resized) && Holds(resized, ResizeGrid(g, cols, rows))
    ensures forall i :: 0 <= i < |resized| ==> fresh(resized[i])
  {
    resized := [];
    for r := 0 to rows
      invariant |resized| == r && Distinct(resized)
      invariant forall i :: 0 <= i < r ==> fresh(resized[i]) && resized[i][..] == ResizeGrid(g, cols, rows)[i]
    {
      var row := new Cell[cols](_ => BLANK);
      assert row[..] == Blanks(cols);
      if r < |cells| {
        CopyPrefix(row, cells[r]);
      }
      RepairWideRow(row);
      resized := resized + [row];
    }
  }

  method CopyPrefix(row: array<Cell>, source: array<Cell>)
    requires row != source && row[..] == Blanks(row.Length)
    modifies row
    ensures var kept := Min(row.Length, source.Length); row[..] == source[..kept] + Blanks(row.Length - kept)
  {
    forall c | 0 <= c < Min(row.Length, source.Length) {
      row[c] := source[c];
    }
  }
}
