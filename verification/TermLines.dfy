/** Text of many lines: what stays on the screen is its last lines, and they read back as they were
    (internal/supervisor/vterm.go, lines 62-128, 259-336, 604-614, 678-704). */
module TermLines {
  import opened Utf8
  import opened CsiParams
  import opened TermModel
  import opened TermChunks
  import opened TermText
  import opened TermCsi
  import opened TermEffects
  import opened TermPage

  const RETURN: Byte := 0x0d
  const FEED: Byte := 0x0a

  /** A line of printable text that fits, not ending in a space, which reading drops. */
  predicate Fits(line: seq<Rune>, cols: int) {
    AllPrintable(line) && |Layout(line, false)| <= cols && (line == [] || line[|line| - 1] != SPACE)
  }

  predicate AllFit(lines: seq<seq<Rune>>, cols: int) {
    forall i :: 0 <= i < |lines| ==> Fits(lines[i], cols)
  }

  function RowOf(line: seq<Rune>, cols: nat): (r: Row)
    requires Fits(line, cols)
    ensures |r| == cols
  {
    Layout(line, false) + Blanks(cols - |Layout(line, false)|)
  }

  function RowsOf(lines: seq<seq<Rune>>, cols: nat): (text: Grid)
    requires AllFit(lines, cols)
    ensures |text| == |lines| && Rows(text, cols) && forall i :: 0 <= i < |lines| ==> text[i] == RowOf(lines[i], cols)
  {
    if lines == [] then [] else RowsOf(lines[..|lines| - 1], cols) + [RowOf(lines[|lines| - 1], cols)]
  }

  /** A line and its end: carriage return, line feed. */
  function Ended(line: seq<Rune>): seq<Byte>
    requires AllPrintable(line)
  {
    EncodeAll(line) + [RETURN] + [FEED]
  }

  function Bytes(lines: seq<seq<Rune>>, cols: nat): seq<Byte>
    requires AllFit(lines, cols)
  {
    if lines == [] then [] else Bytes(lines[..|lines| - 1], cols) + Ended(lines[|lines| - 1])
  }

  // ---- writing ----

  lemma WriteControl(t: Term, b: Byte)
    requires Ready(t) && b < 0x20 && b != ESCAPE
    ensures Write(t, [b]) == WithCurrent(t, ControlChar(Current(t), t.cols, t.rows, b))
  {
    assert t.utf8Pending + [b] == [b] && t.(utf8Pending := []) == t;
    RunOneUnit(t, [b]);
  }

  lemma PrintAndReturn(t: Term, line: seq<Rune>)
    requires Idle(t) && AtBlankLine(Current(t), t.cols, t.rows) && !Current(t).faint && Fits(line, t.cols)
    ensures Write(t, EncodeAll(line) + [RETURN]) == WithCurrent(t, WithRow(Current(t), RowOf(line, t.cols)))
  {
    ChunkInvariance(t, EncodeAll(line), [RETURN]);
    WriteLine(t, line);
    WriteControl(WithCurrent(t, Printed(Current(t), t.cols, line)), RETURN);
  }

  lemma WriteEnded(t: Term, line: seq<Rune>)
    requires Idle(t) && AtBlankLine(Current(t), t.cols, t.rows) && !Current(t).faint && Fits(line, t.cols)
    ensures Write(t, Ended(line)) == WithCurrent(t, LineFeed(WithRow(Current(t), RowOf(line, t.cols)), t.cols, t.rows))
  {
    PrintAndReturn(t, line);
    ChunkInvariance(t, EncodeAll(line) + [RETURN], [FEED]);
    var s := WithRow(Current(t), RowOf(line, t.cols));
    WriteControl(WithCurrent(t, s), FEED);
    assert s.(joinNext := false) == s;
  }

  lemma WriteMore(t: Term, text: Grid, line: seq<Rune>)
    requires Idle(t) && Rows(text, t.cols) && t.cols >= 1 && t.rows >= 1 && Fits(line, t.cols)
    requires Current(t) == Page(text, t.cols, t.rows)
    ensures Rows(text + [RowOf(line, t.cols)], t.cols)
    ensures Write(t, Ended(line)) == WithCurrent(t, Page(text + [RowOf(line, t.cols)], t.cols, t.rows))
  {
    LineAtAppend(text, RowOf(line, t.cols), t.cols, 0);
    WriteEnded(t, line);
    NextLine(text, RowOf(line, t.cols), t.cols, t.rows);
  }

  lemma EmptyPage(cols: nat, rows: nat)
    requires cols >= 1 && rows >= 1
    ensures Page([], cols, rows) == NewScreen(cols, rows)
  {
    assert Shown([], cols, rows) == BlankRows(rows, cols);
  }

  function PageTerm(lines: seq<seq<Rune>>, cols: nat, rows: nat): (t: Term)
    requires AllFit(lines, cols) && cols >= 1 && rows >= 1
    ensures Idle(t) && t.cols == cols && t.rows == rows && Current(t) == Page(RowsOf(lines, cols), cols, rows)
  {
    WithCurrent(NewTerm(cols, rows), Page(RowsOf(lines, cols), cols, rows))
  }

  /** Any number of lines written to a new terminal leaves exactly their page. */
  lemma {:induction false} WritePage(cols: nat, rows: nat, lines: seq<seq<Rune>>)
    requires cols >= 1 && rows >= 1 && AllFit(lines, cols)
    ensures Write(NewTerm(cols, rows), Bytes(lines, cols)) == PageTerm(lines, cols, rows)
    decreases |lines|
  {
    var t := NewTerm(cols, rows);
    if lines == [] {
      EmptyPage(cols, rows);
      assert t.utf8Pending + [] == [] && t.(utf8Pending := []) == t;
    } else {
      var init, line := lines[..|lines| - 1], lines[|lines| - 1];
      assert Fits(line, cols) && AllFit(init, cols);
      WritePage(cols, rows, init);
      ChunkInvariance(t, Bytes(init, cols), Ended(line));
      WriteMore(PageTerm(init, cols, rows), RowsOf(init, cols), line);
    }
  }

  // ---- reading back ----

  lemma RowReadsBack(line: seq<Rune>, cols: nat)
    requires Fits(line, cols)
    ensures RowText(RowOf(line, cols), true) == line
  {
    if line == [] {
      BlankReadsBack(cols);
      assert [] + Blanks(cols) == Blanks(cols);
    } else {
      ReadBack(line, cols);
    }
  }

  lemma BlankReadsBack(cols: nat)
    ensures RowText(Blanks(cols), true) == []
  {
    assert forall c :: 0 <= c < cols ==> !Inked(Blanks(cols)[c]);
  }

  /** Line k of a text, nothing past its end. */
  function LineOf(lines: seq<seq<Rune>>, k: nat): seq<Rune> {
    if k < |lines| then lines[k] else []
  }

  lemma LineReadsBack(lines: seq<seq<Rune>>, cols: nat, k: nat)
    requires AllFit(lines, cols)
    ensures RowText(LineAt(RowsOf(lines, cols), cols, k), true) == LineOf(lines, k)
  {
    if k < |lines| {
      assert Fits(lines[k], cols);
      RowReadsBack(lines[k], cols);
    } else {
      BlankReadsBack(cols);
    }
  }

  /** The round trip of a whole text: its lines, each ended by CR LF, encoded, cut into writes anyhow, on a
      new terminal of any size that holds them: the rows read back as its last lines. */
  lemma TextPageRoundTrip(cols: nat, rows: nat, lines: seq<seq<Rune>>, chunks: seq<seq<Byte>>, i: nat)
    requires cols >= 1 && rows >= 1 && AllFit(lines, cols) && Concat(chunks) == Bytes(lines, cols) && i < rows
    ensures RowText(Current(WriteAll(NewTerm(cols, rows), chunks)).cells[i], true) ==
              LineOf(lines, Top(|lines|, rows) + i)
  {
    AnyChunking(NewTerm(cols, rows), chunks);
    WritePage(cols, rows, lines);
    LineReadsBack(lines, cols, Top(|lines|, rows) + i);
  }

  /** With the last line not ended, all rows are used: the last `rows` lines, or all of them. */
  lemma OpenTextRoundTrip(cols: nat, rows: nat, lines: seq<seq<Rune>>, last: seq<Rune>, i: nat)
    requires cols >= 1 && rows >= 1 && AllFit(lines, cols) && Fits(last, cols) && i < rows
    ensures RowText(Current(Write(NewTerm(cols, rows), Bytes(lines, cols) + EncodeAll(last))).cells[i], true) ==
            LineOf(lines + [last], Top(|lines|, rows) + i)
  {
    var t := NewTerm(cols, rows);
    WritePage(cols, rows, lines);
    ChunkInvariance(t, Bytes(lines, cols), EncodeAll(last));
    WriteLine(PageTerm(lines, cols, rows), last);
    LineReadsBack(lines, cols, Top(|lines|, rows) + i);
    RowReadsBack(last, cols);
    OpenRow(RowsOf(lines, cols), lines, last, RowOf(last, cols), cols, rows, i);
  }

  lemma OpenLine(text: Grid, lines: seq<seq<Rune>>, last: seq<Rune>, row: Row, cols: nat, k: nat)
    requires Rows(text, cols) && |row| == cols && Rows(text + [row], cols) && |text| == |lines|
    requires RowText(row, true) == last && RowText(LineAt(text, cols, k), true) == LineOf(lines, k)
    ensures RowText(LineAt(text + [row], cols, k), true) == LineOf(lines + [last], k)
  {
    LineAtAppend(text, row, cols, k);
  }

  lemma OpenRow(text: Grid, lines: seq<seq<Rune>>, last: seq<Rune>, row: Row, cols: nat, rows: nat, i: nat)
    requires Rows(text, cols) && |row| == cols && |text| == |lines| && cols >= 1 && rows >= 1 && i < rows
    requires RowText(row, true) == last
    requires RowText(LineAt(text, cols, Top(|lines|, rows) + i), true) == LineOf(lines, Top(|lines|, rows) + i)
    ensures RowText(WithRow(Page(text, cols, rows), row).cells[i], true) ==
              LineOf(lines + [last], Top(|lines|, rows) + i)
  {
    var k := Top(|lines|, rows) + i;
    LineAtAppend(text, row, cols, k);
    OpenLine(text, lines, last, row, cols, k);
    FilledRow(text, row, cols, rows, i);
  }
}
