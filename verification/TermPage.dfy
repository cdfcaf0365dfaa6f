/** Rows put on the screen one after another, a line feed after each: the last of them stay
    (internal/supervisor/vterm.go, lines 286-293, 604-614). */
module TermPage {
  import opened CsiParams
  import opened TermModel
  import opened TermText
  import opened TermEffects

  predicate Rows(text: Grid, cols: nat) {
    forall i :: 0 <= i < |text| ==> |text[i]| == cols
  }

  /** Row number k of a text; blank past its end. */
  function LineAt(text: Grid, cols: nat, k: nat): (r: Row)
    requires Rows(text, cols)
    ensures |r| == cols
  {
    if k < |text| then text[k] else Blanks(cols)
  }

  /** The first line still on the screen when the cursor stands below the text. */
  function Top(lines: nat, rows: nat): nat
    requires rows >= 1
  {
    if lines < rows then 0 else lines - (rows - 1)
  }

  /** What the rows show when the last line of a text has just been ended. */
  function Shown(text: Grid, cols: nat, rows: nat): (g: Grid)
    requires Rows(text, cols) && rows >= 1
    ensures |g| == rows && forall i :: 0 <= i < rows ==> g[i] == LineAt(text, cols, Top(|text|, rows) + i)
  {
    seq(rows, i requires 0 <= i < rows => LineAt(text, cols, Top(|text|, rows) + i))
  }

  function Page(text: Grid, cols: nat, rows: nat): (s: Screen)
    requires Rows(text, cols) && cols >= 1 && rows >= 1
    ensures Shape(s, cols, rows) && AtBlankLine(s, cols, rows) && !s.faint
  {
    NewScreen(cols, rows).(cells := Shown(text, cols, rows), row := Min(|text|, rows - 1))
  }

  lemma LineAtAppend(text: Grid, row: Row, cols: nat, k: nat)
    requires Rows(text, cols) && |row| == cols
    ensures Rows(text + [row], cols)
    ensures LineAt(text + [row], cols, k) == if k == |text| then row else LineAt(text, cols, k)
  {
  }

  /** A row put where the cursor stands is the text's next line. */
  lemma FilledRow(text: Grid, row: Row, cols: nat, rows: nat, i: nat)
    requires Rows(text, cols) && |row| == cols && Rows(text + [row], cols) && cols >= 1 && rows >= 1 && i < rows
    ensures WithRow(Page(text, cols, rows), row).cells[i] == LineAt(text + [row], cols, Top(|text|, rows) + i)
  {
    LineAtAppend(text, row, cols, Top(|text|, rows) + i);
  }

  lemma NextLineRow(text: Grid, row: Row, cols: nat, rows: nat, i: nat)
    requires Rows(text, cols) && |row| == cols && Rows(text + [row], cols) && cols >= 1 && rows >= 1 && i < rows
    ensures LineFeed(WithRow(Page(text, cols, rows), row), cols, rows).cells[i] == Shown(text + [row], cols, rows)[i]
  {
    LineFeedEffect(WithRow(Page(text, cols, rows), row), cols, rows, i);
    FilledRow(text, row, cols, rows, i);
    if i < rows - 1 {
      FilledRow(text, row, cols, rows, i + 1);
    }
  }

  /** One more line, ended: the page moves on. */
  lemma NextLine(text: Grid, row: Row, cols: nat, rows: nat)
    requires Rows(text, cols) && |row| == cols && Rows(text + [row], cols) && cols >= 1 && rows >= 1
    ensures LineFeed(WithRow(Page(text, cols, rows), row), cols, rows) == Page(text + [row], cols, rows)
  {
    var s := WithRow(Page(text, cols, rows), row);
    var s' := LineFeed(s, cols, rows);
    forall i | 0 <= i < rows ensures s'.cells[i] == Shown(text + [row], cols, rows)[i] {
      NextLineRow(text, row, cols, rows, i);
    }
    assert s'.cells == Shown(text + [row], cols, rows);
    LineFeedEffect(s, cols, rows, 0);
  }
}
