/** In-place edits of one row of cells (internal/supervisor/vterm.go, lines 347-358, 573-575, 626-661). */
module TermRows {
  import opened Utf8
  import opened TermModel

  method EraseWideAt(r: array<Cell>, col: int)
    modifies r
    ensures r[..] == EraseWide(old(r[..]), col)
  {
    if col < 0 || col >= r.Length {
      return;
    }
    if r[col].continuation && col > 0 {
      r[col - 1] := BLANK;
    }
    if col + 1 < r.Length && r[col + 1].continuation {
      r[col + 1] := BLANK;
    }
    r[col] := BLANK;
  }

  method EraseCells(r: array<Cell>, from: int, stop: int)
    modifies r
    ensures r[..] == EraseRange(old(r[..]), from, stop)
  {
    var c := from;
    while c < stop
      invariant EraseRange(r[..], c, stop) == EraseRange(old(r[..]), from, stop)
    {
      EraseWideAt(r, c);
      c := c + 1;
    }
  }

  method ClearRow(r: array<Cell>)
    modifies r
    ensures r[..] == Blanks(r.Length)
  {
    forall i | 0 <= i < r.Length {
      r[i] := BLANK;
    }
  }

  /** Opens a gap of n blanks at c; what falls off the right edge is lost. */
  method InsertCells(r: array<Cell>, c: int, n: int)
    requires 0 <= c <= c + n <= r.Length
    modifies r
    ensures r[..] == InsertChars(old(r[..]), c, n)
  {
    forall i | c + n <= i < r.Length {
      r[i] := r[i - n];
    }
    forall i | c <= i < c + n {
      r[i] := BLANK;
    }
  }

  /** Closes up over n cells at c; blanks enter from the right edge. */
  method DeleteCells(r: array<Cell>, c: int, n: int)
    requires 0 <= c <= c + n <= r.Length
    modifies r
    ensures r[..] == DeleteChars(old(r[..]), c, n)
  {
    forall i | c <= i < r.Length - n {
      r[i] := r[i + n];
    }
    forall i | r.Length - n <= i < r.Length {
      r[i] := BLANK;
    }
  }

  method RepairWideRow(r: array<Cell>)
    modifies r
    ensures r[..] == Repair(old(r[..]))
  {
    if r.Length < 2 {
      return;
    }
    for col := 0 to r.Length
      invariant RepairFrom(r[..], col) == RepairFrom(old(r[..]), 0)
    {
      var cell := r[col];
      ghost var before := r[..];
      if cell.continuation {
        if col == 0 || r[col - 1].continuation || r[col - 1].text == [] || RuneWidth(r[col - 1].text[0]) != 2 {
          assert Orphan(before, col);
          r[col] := BLANK;
          assert r[..] == before[col := BLANK];
        } else {
          assert !Orphan(before, col);
        }
        continue;
      }
      if cell.text != [] && RuneWidth(cell.text[0]) == 2 && (col + 1 >= r.Length || !r[col + 1].continuation) {
        assert Orphan(before, col);
        r[col] := BLANK;
        assert r[..] == before[col := BLANK];
      } else {
        assert !Orphan(before, col);
      }
    }
  }

  /** Writes a character of width w over whatever its cells belonged to. */
  method PrintCells(r: array<Cell>, col: int, ch: Rune, w: nat, faint: bool)
    requires 1 <= w <= 2 && 0 <= col && col + w <= r.Length
    modifies r
    ensures r[..] == PrintInto(old(r[..]), col, ch, w, faint)
  {
    EraseWideAt(r, col);
    if w == 2 {
      EraseWideAt(r, col + 1);
    }
    r[col] := Cell([ch], false, faint);
    if w == 2 {
      r[col + 1] := Cell([], true, faint);
    }
  }

  method AppendRune(r: array<Cell>, c: int, ch: Rune)
    requires 0 <= c < r.Length
    modifies r
    ensures r[..] == old(r[..])[c := old(r[c]).(text := old(r[c]).text + [ch])]
  {
    r[c] := r[c].(text := r[c].text + [ch]);
  }
}
