/** What printing and erasing mean on the screen, and that text written is text read back
    (internal/supervisor/vterm.go, lines 302-358, 563-576, 664-704). */
module TermText {
  import opened Utf8
  import opened CsiParams
  import opened TermModel
  import opened TermChunks
  import opened TermInvariant

  const SPACE: Rune := 0x20

  // ---- reading a row ----

  predicate Inked(c: Cell) {
    c.continuation || (c.text != [] && c.text != [SPACE])
  }

  /** Length of the row once trailing blank cells are dropped. */
  function InkEnd(r: Row, n: nat): (k: nat)
    requires n <= |r|
    ensures k <= n && (k == 0 || Inked(r[k - 1])) && forall c :: k <= c < n ==> !Inked(r[c])
  {
    if n == 0 || Inked(r[n - 1]) then n else InkEnd(r, n - 1)
  }

  function Glyph(c: Cell, omitContinuation: bool): seq<Rune> {
    if c.continuation then (if omitContinuation then [] else [SPACE])
    else if c.text != [] then c.text
    else [SPACE]
  }

  function Glyphs(r: Row, omitContinuation: bool): seq<Rune> {
    if r == [] then [] else Glyphs(r[..|r| - 1], omitContinuation) + Glyph(r[|r| - 1], omitContinuation)
  }

  function RowText(r: Row, omitContinuation: bool): seq<Rune> {
    Glyphs(r[..InkEnd(r, |r|)], omitContinuation)
  }

  // ---- erasing ----

  /** On a sound row, erasing a range blanks it, takes with it the two halves cut off at its ends,
      and touches nothing else. */
  lemma {:induction false} EraseRangeEffect(r: Row, from: int, stop: int, c: int)
    requires RowOk(r) && |r| >= 2 && 0 <= from < stop <= |r| && 0 <= c < |r|
    ensures EraseRange(r, from, stop)[c] ==
            if from <= c < stop
               || (c == from - 1 && r[from].continuation)
               || (c == stop && r[stop].continuation) then BLANK
            else r[c]
    decreases stop - from
  {
    var r1 := EraseWide(r, from);
    assert !Orphan(r, from) && !Orphan(r, c);
    if from + 1 < |r| { assert !Orphan(r, from + 1); }
    if from + 1 < stop {
      EraseWideOk(r, from);
      EraseRangeEffect(r1, from + 1, stop, c);
      assert r1[from + 1].continuation == false;
      if stop < |r| && stop > from + 1 {
        assert r1[stop] == r[stop];
      }
    }
  }

  // ---- printing ----

  /** A printed character occupies exactly its cells; besides them only a half whose other half was
      overwritten changes, and it becomes blank. */
  lemma PrintEffect(r: Row, col: int, ch: Rune, w: nat, faint: bool, c: int)
    requires RowOk(r) && |r| >= 2 && 1 <= w <= 2 && 0 <= col && col + w <= |r| && 0 <= c < |r|
    ensures PrintInto(r, col, ch, w, faint)[c] ==
            if c == col then Cell([ch], false, faint)
            else if col < c < col + w then Cell([], true, faint)
            else if (c == col - 1 && r[col].continuation) || (c == col + w && r[c].continuation) then BLANK
            else r[c]
  {
    assert !Orphan(r, col) && !Orphan(r, c);
    assert !Orphan(r, col + w - 1);
  }

  /** The cells one character takes, and those a line of them should take, written down directly. */
  function Taken(ch: Rune, faint: bool): Row {
    if RuneWidth(ch) == 2 then [Cell([ch], false, faint), Cell([], true, faint)] else [Cell([ch], false, faint)]
  }

  function Layout(runes: seq<Rune>, faint: bool): Row {
    if runes == [] then [] else Layout(runes[..|runes| - 1], faint) + Taken(runes[|runes| - 1], faint)
  }

  lemma LayoutStep(runes: seq<Rune>, ch: Rune, faint: bool)
    ensures Layout(runes + [ch], faint) == Layout(runes, faint) + Taken(ch, faint)
  {
    assert (runes + [ch])[..|runes|] == runes;
  }

  lemma PrintAtEnd(prefix: Row, room: nat, ch: Rune, faint: bool)
    requires 1 <= RuneWidth(ch) <= room
    ensures PrintInto(prefix + Blanks(room), |prefix|, ch, RuneWidth(ch), faint)
            == prefix + Taken(ch, faint) + Blanks(room - RuneWidth(ch))
  {
    var r := prefix + Blanks(room);
    assert EraseWide(r, |prefix|) == r;
    if RuneWidth(ch) == 2 {
      assert EraseWide(r, |prefix| + 1) == r;
    }
  }

  /** The screen after printing runes from the left edge of a blank row. */
  function Printed(s: Screen, cols: int, runes: seq<Rune>): (s': Screen)
    requires 0 <= s.row < |s.cells| && 0 < cols && |Layout(runes, s.faint)| <= cols
  {
    Filled(s, cols, Layout(runes, s.faint))
  }

  function Filled(s: Screen, cols: int, cells: Row): (s': Screen)
    requires 0 <= s.row < |s.cells| && 0 < cols && |cells| <= cols
  {
    WithRow(s, cells + Blanks(cols - |cells|)).(col := Min(|cells|, cols - 1), pendingWrap := |cells| == cols)
  }

  predicate AtBlankLine(s: Screen, cols: int, rows: int) {
    Shape(s, cols, rows) && s.col == 0 && !s.pendingWrap && !s.joinNext && s.cells[s.row] == Blanks(cols)
  }

  lemma PrintOne(s: Screen, cols: int, rows: int, runes: seq<Rune>, ch: Rune)
    requires AtBlankLine(s, cols, rows) && RuneWidth(ch) >= 1
    requires |Layout(runes + [ch], s.faint)| <= cols
    ensures |Layout(runes, s.faint)| + RuneWidth(ch) == |Layout(runes + [ch], s.faint)|
    ensures Shape(Printed(s, cols, runes), cols, rows)
    ensures Put(Printed(s, cols, runes), cols, rows, ch) == Printed(s, cols, runes + [ch])
  {
    LayoutStep(runes, ch, s.faint);
    PlaceAtEnd(s, cols, rows, Layout(runes, s.faint), ch);
  }

  /** Placing a character right of what a line already holds. */
  lemma PlaceAtEnd(s: Screen, cols: int, rows: int, cells: Row, ch: Rune)
    requires AtBlankLine(s, cols, rows) && RuneWidth(ch) >= 1 && |cells| + RuneWidth(ch) <= cols
    ensures Put(Filled(s, cols, cells), cols, rows, ch) == Filled(s, cols, cells + Taken(ch, s.faint))
  {
    var p := Filled(s, cols, cells);
    var w := RuneWidth(ch);
    assert CellsTaken(ch, cols) == w && Settle(p, cols, rows, w) == p;
    PrintAtEnd(cells, cols - |cells|, ch, s.faint);
    var row := cells + Taken(ch, s.faint) + Blanks(cols - |cells| - w);
    assert WithRow(p, row).cells == s.cells[s.row := row];
  }

  // ---- writing a line of text ----

  predicate Printable(r: Rune) {
    Scalar(r) && r >= 0x20 && !(0x7f <= r <= 0x9f) && RuneWidth(r) >= 1
  }

  predicate AllPrintable(runes: seq<Rune>) {
    forall i :: 0 <= i < |runes| ==> Printable(runes[i])
  }

  function EncodeAll(runes: seq<Rune>): seq<Byte>
    requires AllPrintable(runes)
  {
    if runes == [] then [] else EncodeAll(runes[..|runes| - 1]) + Encode(runes[|runes| - 1])
  }

  predicate Idle(t: Term) {
    TermShape(t) && t.state == Ground && t.utf8Pending == [] && !Current(t).joinNext
  }

  lemma ConsumeRune(t: Term, ch: Rune)
    requires Idle(t) && Printable(ch)
    ensures !MustWait(t, Encode(ch)) && UnitSize(t, Encode(ch)) == |Encode(ch)|
    ensures Consume(t, Encode(ch)) == PutRune(t, ch)
  {
    var data := Encode(ch);
    DecodeEncode(ch, []);
    assert data + [] == data;
    if ch < 0x80 {
      assert Current(t).(joinNext := false) == Current(t);
    } else {
      EncodedLead(ch);
    }
  }

  lemma RunOneUnit(t: Term, data: seq<Byte>)
    requires TermShape(t) && |data| > 0 && !MustWait(t, data) && UnitSize(t, data) == |data|
    ensures Run(t, data) == Consume(t, data)
  {
    assert data[UnitSize(t, data)..] == [];
  }

  lemma WriteOneRune(t: Term, ch: Rune)
    requires Idle(t) && Printable(ch)
    ensures Write(t, Encode(ch)) == PutRune(t, ch)
  {
    assert t.utf8Pending + Encode(ch) == Encode(ch);
    assert t.(utf8Pending := []) == t;
    ConsumeRune(t, ch);
    RunOneUnit(t, Encode(ch));
  }

  lemma EncodedLead(ch: Rune)
    requires Scalar(ch) && ch >= 0x80
    ensures Encode(ch)[0] >= RUNE_SELF
  {
  }

  lemma {:induction false} WriteLine(t: Term, runes: seq<Rune>)
    requires Idle(t) && AtBlankLine(Current(t), t.cols, t.rows) && AllPrintable(runes)
    requires |Layout(runes, Current(t).faint)| <= t.cols
    ensures Write(t, EncodeAll(runes)) == WithCurrent(t, Printed(Current(t), t.cols, runes))
    decreases |runes|
  {
    var s := Current(t);
    if runes == [] {
      assert Blanks(0) + Blanks(t.cols) == Blanks(t.cols);
      assert WithRow(s, [] + Blanks(t.cols)).cells == s.cells;
      assert Printed(s, t.cols, []) == s;
      assert t.utf8Pending + [] == [];
    } else {
      var n := |runes| - 1;
      var init, ch := runes[..n], runes[n];
      assert runes == init + [ch];
      PrintOne(s, t.cols, t.rows, init, ch);
      WriteLine(t, init);
      var t1 := WithCurrent(t, Printed(s, t.cols, init));
      ChunkInvariance(t, EncodeAll(init), Encode(ch));
      WriteOneRune(t1, ch);
    }
  }

  // ---- reading it back ----

  lemma GlyphsAppend(r: Row, c: Cell, omit: bool)
    ensures Glyphs(r + [c], omit) == Glyphs(r, omit) + Glyph(c, omit)
  {
    assert (r + [c])[..|r|] == r;
  }

  lemma GlyphsTaken(before: Row, ch: Rune, faint: bool)
    ensures Glyphs(before + Taken(ch, faint), true) == Glyphs(before, true) + [ch]
  {
    var owner, half := Cell([ch], false, faint), Cell([], true, faint);
    GlyphsAppend(before, owner, true);
    if RuneWidth(ch) == 2 {
      GlyphsAppend(before + [owner], half, true);
      assert before + [owner] + [half] == before + Taken(ch, faint);
    }
  }

  lemma LayoutGlyphsStep(init: seq<Rune>, ch: Rune, faint: bool)
    requires Glyphs(Layout(init, faint), true) == init
    ensures Glyphs(Layout(init + [ch], faint), true) == init + [ch]
  {
    LayoutStep(init, ch, faint);
    GlyphsTaken(Layout(init, faint), ch, faint);
  }

  lemma {:induction false} LayoutGlyphs(runes: seq<Rune>, faint: bool)
    ensures Glyphs(Layout(runes, faint), true) == runes
    decreases |runes|
  {
    if runes != [] {
      var init, ch := runes[..|runes| - 1], runes[|runes| - 1];
      assert runes == init + [ch];
      LayoutGlyphs(init, faint);
      LayoutGlyphsStep(init, ch, faint);
    }
  }

  lemma LayoutInked(runes: seq<Rune>, faint: bool)
    requires runes != [] && runes[|runes| - 1] != SPACE
    ensures var cells := Layout(runes, faint); cells != [] && Inked(cells[|cells| - 1])
  {
  }

  /** Any line of printable characters that fits, written as UTF-8 in any number of pieces to a new
      terminal, is exactly the first text row read back. */
  lemma TextRoundTrip(cols: int, rows: int, runes: seq<Rune>, chunks: seq<seq<Byte>>)
    requires AllPrintable(runes) && runes != [] && runes[|runes| - 1] != SPACE
    requires |Layout(runes, false)| <= cols
    requires Concat(chunks) == EncodeAll(runes)
    ensures var s := Current(WriteAll(NewTerm(cols, rows), chunks));
            RowText(s.cells[0], true) == runes
  {
    AnyChunking(NewTerm(cols, rows), chunks);
    FirstLine(cols, rows, runes);
    ReadBack(runes, cols);
  }

  lemma ReadBack(runes: seq<Rune>, cols: int)
    requires runes != [] && runes[|runes| - 1] != SPACE && |Layout(runes, false)| <= cols
    ensures RowText(Layout(runes, false) + Blanks(cols - |Layout(runes, false)|), true) == runes
  {
    LayoutInked(runes, false);
    LayoutGlyphs(runes, false);
    TextOfInk(Layout(runes, false), cols - |Layout(runes, false)|);
  }

  /** A row is read up to its last inked cell. */
  lemma TextOfInk(cells: Row, room: nat)
    requires cells != [] && Inked(cells[|cells| - 1])
    ensures RowText(cells + Blanks(room), true) == Glyphs(cells, true)
  {
    var r := cells + Blanks(room);
    assert Inked(r[|cells| - 1]);
    assert forall c :: |cells| <= c < |r| ==> !Inked(r[c]);
    assert r[..|cells|] == cells;
  }

  lemma FirstLine(cols: int, rows: int, runes: seq<Rune>)
    requires AllPrintable(runes) && runes != [] && |Layout(runes, false)| <= cols
    ensures Current(Write(NewTerm(cols, rows), EncodeAll(runes))).cells[0]
            == Layout(runes, false) + Blanks(cols - |Layout(runes, false)|)
  {
    assert Layout(runes, false) != [];
    WriteLine(NewTerm(cols, rows), runes);
  }
}
