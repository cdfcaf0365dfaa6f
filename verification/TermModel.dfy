/** The virtual terminal as a value: what every operation of internal/supervisor/vterm.go
    computes from the state before it. TermRows, TermScreen and Terminal prove the in-place code equal to this. */
module TermModel {
  import opened Utf8
  import opened CsiParams

  type Width = w: nat | w <= 2

  /** Display width of a rune. The table behind it is not modelled: nothing is known about this
      function except that it answers 0, 1 or 2. */
  const RuneWidth: Rune -> Width

  const JOINER: Rune := 0x200d
  const SEQUENCE_LIMIT: nat := 4096

  datatype Cell = Cell(text: seq<Rune>, continuation: bool, faint: bool)

  const BLANK: Cell := Cell([], false, false)

  type Row = seq<Cell>

  type Grid = seq<Row>

  datatype Screen = Screen(cells: Grid, row: int, col: int, savedRow: int, savedCol: int,
                           scrollTop: int, scrollBottom: int,
                           savedFaint: bool, joinNext: bool, pendingWrap: bool, faint: bool)

  datatype Parser = Ground | Escape | Csi | Osc | Dcs | StringEscape | EscapeIntermediate
                  | DiscardCsi | DiscardOsc | DiscardDcs

  datatype Term = Term(cols: int, rows: int, primary: Screen, alternate: Screen, useAlternate: bool,
                       state: Parser, sequence: seq<Byte>, sequenceBytes: nat, utf8Pending: seq<Byte>)

  // ---- shape: every index used below is in range ----

  predicate GridShape(g: Grid, cols: int, rows: int) {
    |g| == rows && forall r :: 0 <= r < |g| ==> |g[r]| == cols
  }

  predicate Shape(s: Screen, cols: int, rows: int) {
    && GridShape(s.cells, cols, rows)
    && 0 <= s.row < rows && 0 <= s.col < cols
    && 0 <= s.savedRow < rows && 0 <= s.savedCol < cols
    && 0 <= s.scrollTop <= s.scrollBottom < rows
  }

  predicate TermShape(t: Term) {
    && Shape(t.primary, t.cols, t.rows)
    && Shape(t.alternate, t.cols, t.rows)
    && |t.sequence| <= SEQUENCE_LIMIT
  }

  // ---- small arithmetic ----

  function Max(a: int, b: int): int {
    if a > b then a else b
  }

  function Clamp(n: int, low: int, high: int): int {
    Min(Max(n, low), high)
  }

  // ---- rows ----

  function Blanks(n: nat): (r: Row)
    ensures |r| == n && forall i :: 0 <= i < n ==> r[i] == BLANK
  {
    seq(n, _ => BLANK)
  }

  predicate Wide(c: Cell) {
    c.text != [] && RuneWidth(c.text[0]) == 2
  }

  /** Blanks one column together with the other half of any wide character it belongs to. */
  function EraseWide(r: Row, col: int): (r': Row)
    ensures |r'| == |r|
  {
    if col < 0 || col >= |r| then r
    else
      var r1 := if r[col].continuation && col > 0 then r[col - 1 := BLANK] else r;
      var r2 := if col + 1 < |r| && r1[col + 1].continuation then r1[col + 1 := BLANK] else r1;
      r2[col := BLANK]
  }

  function EraseRange(r: Row, from: int, stop: int): (r': Row)
    ensures |r'| == |r|
    decreases stop - from
  {
    if from >= stop then r else EraseRange(EraseWide(r, from), from + 1, stop)
  }

  function InsertChars(r: Row, c: int, n: int): (r': Row)
    requires 0 <= c <= c + n <= |r|
    ensures |r'| == |r|
  {
    r[..c] + Blanks(n) + r[c..|r| - n]
  }

  function DeleteChars(r: Row, c: int, n: int): (r': Row)
    requires 0 <= c <= c + n <= |r|
    ensures |r'| == |r|
  {
    r[..c] + r[c + n..] + Blanks(n)
  }

  /** Whether the cell at col has lost its other half. */
  predicate Orphan(r: Row, col: int)
    requires 0 <= col < |r|
  {
    if r[col].continuation then col == 0 || r[col - 1].continuation || !Wide(r[col - 1])
    else Wide(r[col]) && (col + 1 >= |r| || !r[col + 1].continuation)
  }

  function RepairFrom(r: Row, col: nat): (r': Row)
    ensures |r'| == |r|
    decreases |r| - col
  {
    if col >= |r| then r
    else RepairFrom(if Orphan(r, col) then r[col := BLANK] else r, col + 1)
  }

  /** Rows narrower than two columns are left alone. */
  function Repair(r: Row): (r': Row)
    ensures |r'| == |r|
  {
    if |r| < 2 then r else RepairFrom(r, 0)
  }

  // ---- grids ----

  function BlankRows(n: nat, cols: nat): (g: Grid)
    ensures |g| == n && forall i :: 0 <= i < n ==> g[i] == Blanks(cols)
  {
    seq(n, _ => Blanks(cols))
  }

  function ClearRows(g: Grid, from: int, stop: int, cols: nat): (g': Grid)
    ensures |g'| == |g|
    ensures forall i :: 0 <= i < |g| ==> g'[i] == if from <= i < stop then Blanks(cols) else g[i]
  {
    seq(|g|, i requires 0 <= i < |g| => if from <= i < stop then Blanks(cols) else g[i])
  }

  /** Items from..bottom move up; new ones enter at the bottom and as many leave at the top. */
  function SpliceUp<T>(s: seq<T>, from: int, bottom: int, entering: seq<T>): (s': seq<T>)
    requires 0 <= from <= bottom < |s| && |entering| <= bottom - from + 1
    ensures |s'| == |s|
    ensures forall i :: 0 <= i < from || bottom < i < |s| ==> s'[i] == s[i]
    ensures forall i :: from <= i <= bottom - |entering| ==> s'[i] == s[i + |entering|]
    ensures forall i :: bottom - |entering| < i <= bottom ==> s'[i] == entering[i - (bottom - |entering| + 1)]
  {
    s[..from] + s[from + |entering|..bottom + 1] + entering + s[bottom + 1..]
  }

  /** Items from..bottom move down; new ones enter at from and as many leave at the bottom. */
  function SpliceDown<T>(s: seq<T>, from: int, bottom: int, entering: seq<T>): (s': seq<T>)
    requires 0 <= from <= bottom < |s| && |entering| <= bottom - from + 1
    ensures |s'| == |s|
    ensures forall i :: 0 <= i < from || bottom < i < |s| ==> s'[i] == s[i]
    ensures forall i :: from <= i < from + |entering| ==> s'[i] == entering[i - from]
    ensures forall i :: from + |entering| <= i <= bottom ==> s'[i] == s[i - |entering|]
  {
    s[..from] + entering + s[from..bottom + 1 - |entering|] + s[bottom + 1..]
  }

  function ShiftUp(g: Grid, from: int, bottom: int, n: int, cols: nat): (g': Grid)
    requires 0 <= from <= bottom < |g| && 0 <= n <= bottom - from + 1
    ensures |g'| == |g|
  {
    SpliceUp(g, from, bottom, BlankRows(n, cols))
  }

  function ShiftDown(g: Grid, from: int, bottom: int, n: int, cols: nat): (g': Grid)
    requires 0 <= from <= bottom < |g| && 0 <= n <= bottom - from + 1
    ensures |g'| == |g|
  {
    SpliceDown(g, from, bottom, BlankRows(n, cols))
  }

  // ---- screens ----

  function NewScreen(cols: nat, rows: nat): (s: Screen)
    requires cols >= 1 && rows >= 1
    ensures Shape(s, cols, rows)
  {
    Screen(BlankRows(rows, cols), 0, 0, 0, 0, 0, rows - 1, false, false, false, false)
  }

  function WithRow(s: Screen, r: Row): (s': Screen)
    requires 0 <= s.row < |s.cells|
  {
    s.(cells := s.cells[s.row := r])
  }

  function ScrollUpAt(s: Screen, cols: int, rows: int, from: int, n: nat): (s': Screen)
    requires Shape(s, cols, rows)
    ensures Shape(s', cols, rows)
  {
    if from < s.scrollTop || from > s.scrollBottom then s
    else s.(cells := ShiftUp(s.cells, from, s.scrollBottom, Min(n, s.scrollBottom - from + 1), cols))
  }

  function ScrollDownAt(s: Screen, cols: int, rows: int, from: int, n: nat): (s': Screen)
    requires Shape(s, cols, rows)
    ensures Shape(s', cols, rows)
  {
    if from < s.scrollTop || from > s.scrollBottom then s
    else s.(cells := ShiftDown(s.cells, from, s.scrollBottom, Min(n, s.scrollBottom - from + 1), cols))
  }

  function LineFeed(s: Screen, cols: int, rows: int): (s': Screen)
    requires Shape(s, cols, rows)
    ensures Shape(s', cols, rows)
  {
    if s.row == s.scrollBottom then ScrollUpAt(s, cols, rows, s.scrollTop, 1)
    else if s.row < rows - 1 then s.(row := s.row + 1)
    else s
  }

  function ReverseIndex(s: Screen, cols: int, rows: int): (s': Screen)
    requires Shape(s, cols, rows)
    ensures Shape(s', cols, rows)
  {
    if s.row == s.scrollTop then ScrollDownAt(s, cols, rows, s.scrollTop, 1)
    else if s.row > 0 then s.(row := s.row - 1)
    else s
  }

  /** Column of the character a zero-width rune attaches to; -1 if there is none. */
  function PreviousCell(s: Screen): (c: int)
    requires 0 <= s.row < |s.cells| && 0 <= s.col < |s.cells[s.row]|
    ensures -2 < c < |s.cells[s.row]|
  {
    var c := if s.pendingWrap then s.col else s.col - 1;
    if c >= 0 && s.cells[s.row][c].continuation then c - 1 else c
  }

  function AppendText(s: Screen, c: int, ch: Rune): (s': Screen)
    requires 0 <= s.row < |s.cells| && 0 <= c < |s.cells[s.row]|
  {
    var cell := s.cells[s.row][c];
    WithRow(s, s.cells[s.row][c := cell.(text := cell.text + [ch])])
  }

  function Attach(s: Screen, cols: int, rows: int, ch: Rune): (s': Screen)
    requires Shape(s, cols, rows)
    ensures Shape(s', cols, rows)
  {
    var c := PreviousCell(s);
    var s1 := if c >= 0 then AppendText(s, c, ch) else s;
    s1.(joinNext := ch == JOINER)
  }

  /** The row a printed character leaves behind. */
  function PrintInto(r: Row, col: int, ch: Rune, w: nat, faint: bool): (r': Row)
    requires 1 <= w <= 2 && 0 <= col && col + w <= |r|
    ensures |r'| == |r|
  {
    var r1 := EraseWide(r, col);
    var r2 := if w == 2 then EraseWide(r1, col + 1) else r1;
    var r3 := r2[col := Cell([ch], false, faint)];
    if w == 2 then r3[col + 1 := Cell([], true, faint)] else r3
  }

  function Place(s: Screen, cols: int, rows: int, ch: Rune, w: nat): (s': Screen)
    requires Shape(s, cols, rows) && 1 <= w <= 2 && s.col + w <= cols
    ensures Shape(s', cols, rows)
  {
    var s1 := WithRow(s, PrintInto(s.cells[s.row], s.col, ch, w, s.faint));
    if s.col + w >= cols then s1.(col := cols - 1, pendingWrap := true) else s1.(col := s.col + w)
  }

  /** A pending wrap, and a wide character with no room left, both move to the next line. */
  function Wrapped(s: Screen, cols: int, rows: int): (s': Screen)
    requires Shape(s, cols, rows)
    ensures Shape(s', cols, rows) && s'.col == 0
  {
    LineFeed(s.(col := 0), cols, rows)
  }

  /** Where the next character of width w goes. */
  function Settle(s: Screen, cols: int, rows: int, w: nat): (s': Screen)
    requires Shape(s, cols, rows) && 1 <= w <= 2 && w <= cols
    ensures Shape(s', cols, rows) && s'.col + w <= cols
  {
    var s1 := if s.pendingWrap then Wrapped(s.(pendingWrap := false), cols, rows) else s;
    if w == 2 && s1.col == cols - 1 then Wrapped(s1, cols, rows) else s1
  }

  function CellsTaken(ch: Rune, cols: int): (w: nat)
    ensures w <= 2
  {
    if cols < 2 && RuneWidth(ch) == 2 then 1 else RuneWidth(ch)
  }

  function Put(s: Screen, cols: int, rows: int, ch: Rune): (s': Screen)
    requires Shape(s, cols, rows)
    ensures Shape(s', cols, rows)
  {
    if RuneWidth(ch) == 0 || s.joinNext then Attach(s, cols, rows, ch)
    else
      var w := CellsTaken(ch, cols);
      Place(Settle(s, cols, rows, w), cols, rows, ch, w)
  }

  function ControlChar(s: Screen, cols: int, rows: int, b: Byte): (s': Screen)
    requires Shape(s, cols, rows)
    ensures Shape(s', cols, rows)
  {
    var s := s.(joinNext := false);
    if b == 0x0d then s.(col := 0, pendingWrap := false)
    else if b == 0x0a || b == 0x0b || b == 0x0c then LineFeed(s, cols, rows)
    else if b == 0x08 then s.(pendingWrap := false, col := Max(0, s.col - 1))
    else if b == 0x09 then s.(col := Min(cols - 1, (s.col / 8 + 1) * 8))
    else if b >= 0x20 && b != 0x7f then Put(s, cols, rows, b)
    else s
  }

  function SaveCursor(s: Screen): (s': Screen) {
    s.(savedRow := s.row, savedCol := s.col, savedFaint := s.faint)
  }

  function RestoreCursor(s: Screen, cols: int, rows: int): (s': Screen) {
    s.(row := Clamp(s.savedRow, 0, rows - 1), col := Clamp(s.savedCol, 0, cols - 1), faint := s.savedFaint)
  }

  function EraseLine(s: Screen, cols: int, rows: int, mode: nat): (s': Screen)
    requires Shape(s, cols, rows)
    ensures Shape(s', cols, rows)
  {
    if mode == 0 then WithRow(s, EraseRange(s.cells[s.row], s.col, cols))
    else if mode == 1 then WithRow(s, EraseRange(s.cells[s.row], 0, s.col + 1))
    else if mode == 2 then WithRow(s, EraseRange(s.cells[s.row], 0, cols))
    else s
  }

  function EraseDisplay(s: Screen, cols: int, rows: int, mode: nat): (s': Screen)
    requires Shape(s, cols, rows)
    ensures Shape(s', cols, rows)
  {
    if mode == 0 then
      var s1 := EraseLine(s, cols, rows, 0);
      s1.(cells := ClearRows(s1.cells, s.row + 1, rows, cols))
    else if mode == 1 then EraseLine(s.(cells := ClearRows(s.cells, 0, s.row, cols)), cols, rows, 1)
    else if mode == 2 then s.(cells := ClearRows(s.cells, 0, rows, cols))
    else s
  }

  function ShiftChars(s: Screen, cols: int, rows: int, n: nat, insert: bool): (s': Screen)
    requires Shape(s, cols, rows)
    ensures Shape(s', cols, rows)
  {
    var k := Min(n, cols - s.col);
    var r := s.cells[s.row];
    WithRow(s, Repair(if insert then InsertChars(r, s.col, k) else DeleteChars(r, s.col, k)))
  }

  // ---- control sequences on one screen ----

  /** Leading number of each semicolon-separated field. */
  function SgrCodes(fields: seq<seq<Byte>>): (out: seq<nat>)
    ensures |out| == |fields|
  {
    seq(|fields|, i requires 0 <= i < |fields| => Params(Cut(fields[i], COLON))[0])
  }

  /** Fields consumed by the attribute starting at field i: extended colours swallow their arguments. */
  function SgrSkip(fields: seq<seq<Byte>>, codes: seq<nat>, i: nat): (k: nat)
    requires i < |codes| == |fields|
    ensures k >= 1
  {
    if codes[i] != 38 && codes[i] != 48 && codes[i] != 58 then 1
    else if COLON in fields[i] || i + 1 >= |codes| then 1
    else if codes[i + 1] == 5 then 3
    else if codes[i + 1] == 2 then 5
    else 1
  }

  function SgrFaint(fields: seq<seq<Byte>>, codes: seq<nat>, i: nat, faint: bool): bool
    requires |codes| == |fields|
    decreases |codes| - i
  {
    if i >= |codes| then faint
    else
      var next := if codes[i] == 0 || codes[i] == 22 then false else if codes[i] == 2 then true else faint;
      SgrFaint(fields, codes, i + SgrSkip(fields, codes, i), next)
  }

  function Graphics(raw: seq<Byte>, faint: bool): bool {
    var fields := Split(raw, SEMICOLON);
    SgrFaint(fields, SgrCodes(fields), 0, faint)
  }

  /** Final bytes that move the cursor and so forget a pending wrap or joiner. */
  predicate Repositions(final: char) {
    final in "HfABCDG`dur"
  }

  function TargetRow(row: int, rows: int, final: char, params: seq<nat>): (r: int)
    requires 0 <= row < rows
    ensures 0 <= r < rows
  {
    var n := Param(params, 0, 1);
    if final in "Hfd" then Clamp(n - 1, 0, rows - 1)
    else if final == 'A' then Max(0, row - n)
    else if final == 'B' then Min(rows - 1, row + n)
    else row
  }

  function TargetCol(col: int, cols: int, final: char, params: seq<nat>): (c: int)
    requires 0 <= col < cols
    ensures 0 <= c < cols
  {
    var n := Param(params, 0, 1);
    if final in "Hf" then Clamp(Param(params, 1, 1) - 1, 0, cols - 1)
    else if final in "G`" then Clamp(n - 1, 0, cols - 1)
    else if final == 'C' then Min(cols - 1, col + n)
    else if final == 'D' then Max(0, col - n)
    else col
  }

  function MoveCursor(s: Screen, cols: int, rows: int, final: char, params: seq<nat>): (s': Screen)
    requires Shape(s, cols, rows)
    ensures Shape(s', cols, rows)
  {
    s.(row := TargetRow(s.row, rows, final, params), col := TargetCol(s.col, cols, final, params))
  }

  function SetScrollRegion(s: Screen, cols: int, rows: int, params: seq<nat>): (s': Screen)
    requires Shape(s, cols, rows)
    ensures Shape(s', cols, rows)
  {
    var top := Clamp(Param(params, 0, 1) - 1, 0, rows - 1);
    var bottom := Clamp(Param(params, 1, rows) - 1, 0, rows - 1);
    if top < bottom then s.(scrollTop := top, scrollBottom := bottom, row := 0, col := 0) else s
  }

  function EditLines(s: Screen, cols: int, rows: int, final: char, params: seq<nat>): (s': Screen)
    requires Shape(s, cols, rows)
    ensures Shape(s', cols, rows)
  {
    var n := Param(params, 0, 1);
    match final
    case 'J' => EraseDisplay(s, cols, rows, Param(params, 0, 0))
    case 'K' => EraseLine(s, cols, rows, Param(params, 0, 0))
    case 'S' => ScrollUpAt(s, cols, rows, s.scrollTop, n)
    case 'T' => ScrollDownAt(s, cols, rows, s.scrollTop, n)
    case 'L' => ScrollDownAt(s, cols, rows, s.row, n)
    case 'M' => ScrollUpAt(s, cols, rows, s.row, n)
    case '@' => ShiftChars(s, cols, rows, n, true)
    case 'P' => ShiftChars(s, cols, rows, n, false)
    case 'X' => WithRow(s, EraseRange(s.cells[s.row], s.col, Min(cols, s.col + n)))
    case _ => s
  }

  /** What a control sequence does once a pending wrap or joiner has been dealt with. */
  function CsiAction(s: Screen, cols: int, rows: int, final: char, raw: seq<Byte>): (s': Screen)
    requires Shape(s, cols, rows)
    ensures Shape(s', cols, rows)
  {
    if final == 'm' then s.(faint := Graphics(raw, s.faint))
    else if final == 's' then (if raw != [] then s else SaveCursor(s))
    else if final == 'u' then (if raw != [] then s else RestoreCursor(s, cols, rows))
    else if final == 'r' then SetScrollRegion(s, cols, rows, Params(raw))
    else if Repositions(final) then MoveCursor(s, cols, rows, final, Params(raw))
    else EditLines(s, cols, rows, final, Params(raw))
  }

  /** A control sequence without private prefix, after its parameter string was accepted. */
  function PlainCsi(s: Screen, cols: int, rows: int, final: char, raw: seq<Byte>): (s': Screen)
    requires Shape(s, cols, rows)
    ensures Shape(s', cols, rows)
  {
    CsiAction(if Repositions(final) then s.(pendingWrap := false, joinNext := false) else s, cols, rows, final, raw)
  }

  // ---- the terminal ----

  function NewTerm(cols: int, rows: int): (t: Term)
    ensures TermShape(t)
  {
    var c := Max(1, cols);
    var r := Max(1, rows);
    Term(c, r, NewScreen(c, r), NewScreen(c, r), false, Ground, [], 0, [])
  }

  function Current(t: Term): Screen {
    if t.useAlternate then t.alternate else t.primary
  }

  function Other(t: Term): Screen {
    if t.useAlternate then t.primary else t.alternate
  }

  function WithCurrent(t: Term, s: Screen): Term {
    if t.useAlternate then t.(alternate := s) else t.(primary := s)
  }

  /** One alternate-screen mode being set (h) or reset (l). */
  function SwitchScreen(t: Term, enable: bool, p: nat): (t': Term)
    requires TermShape(t)
    ensures TermShape(t') && t'.cols == t.cols && t'.rows == t.rows
  {
    if p != 47 && p != 1047 && p != 1049 then t
    else if enable && !t.useAlternate then
      var primary := if p == 1049 then SaveCursor(t.primary) else t.primary;
      var alternate := if p == 1049 || p == 1047 then NewScreen(t.cols, t.rows) else t.alternate;
      t.(primary := primary, alternate := alternate.(faint := primary.faint), useAlternate := true)
    else if !enable && t.useAlternate then
      var primary := t.primary.(faint := t.alternate.faint);
      t.(primary := if p == 1049 then RestoreCursor(primary, t.cols, t.rows) else primary, useAlternate := false)
    else t
  }

  function SwitchScreens(t: Term, enable: bool, params: seq<nat>): (t': Term)
    requires TermShape(t)
    ensures TermShape(t') && t'.cols == t.cols && t'.rows == t.rows
    decreases |params|
  {
    if params == [] then t else SwitchScreens(SwitchScreen(t, enable, params[0]), enable, params[1..])
  }

  predicate PrivatePrefix(b: Byte) {
    b as char in "?><=!"
  }

  function PrivateCsi(t: Term, final: char, raw: seq<Byte>): (t': Term)
    requires TermShape(t)
    ensures TermShape(t') && t'.cols == t.cols && t'.rows == t.rows
  {
    if final == 'J' then WithCurrent(t, EraseDisplay(Current(t), t.cols, t.rows, PrivateEraseMode(raw)))
    else if final == 'K' then WithCurrent(t, EraseLine(Current(t), t.cols, t.rows, PrivateEraseMode(raw)))
    else if final == 'h' || final == 'l' then SwitchScreens(t, final == 'h', Params(raw))
    else t
  }

  function ExecuteCsi(t: Term, final: char, raw: seq<Byte>): (t': Term)
    requires TermShape(t)
    ensures TermShape(t') && t'.cols == t.cols && t'.rows == t.rows
  {
    if |raw| > 0 && PrivatePrefix(raw[0]) then
      if raw[0] as char == '?' then PrivateCsi(t, final, raw[1..]) else t
    else if !Plain(raw) then t
    else WithCurrent(t, PlainCsi(Current(t), t.cols, t.rows, final, raw))
  }

  /** Two-byte escapes that act on the current screen only; all others leave it alone. */
  function EscapeScreen(s: Screen, cols: int, rows: int, b: char): (s': Screen)
    requires Shape(s, cols, rows)
    ensures Shape(s', cols, rows)
  {
    match b
    case '7' => SaveCursor(s)
    case '8' => RestoreCursor(s, cols, rows).(pendingWrap := false)
    case 'D' => LineFeed(s, cols, rows)
    case 'E' => LineFeed(s.(col := 0), cols, rows)
    case 'M' => ReverseIndex(s, cols, rows)
    case _ => s
  }

  /** One byte after ESC. */
  function EscapeByte(t: Term, b: Byte): (t': Term)
    requires TermShape(t)
    ensures TermShape(t') && t'.cols == t.cols && t'.rows == t.rows
  {
    var c := b as char;
    if c == '[' then t.(state := Csi, sequence := [], sequenceBytes := 0)
    else if c == ']' then t.(state := Osc, sequenceBytes := 0)
    else if c in "P^_" then t.(state := Dcs, sequenceBytes := 0)
    else if c in " ()*+-./#" then t.(state := EscapeIntermediate)
    else if c == 'c' then
      t.(primary := NewScreen(t.cols, t.rows), alternate := NewScreen(t.cols, t.rows), useAlternate := false,
            state := Ground)
    else WithCurrent(t, EscapeScreen(Current(t), t.cols, t.rows, c)).(state := Ground)
  }

  function CsiByte(t: Term, b: Byte): (t': Term)
    requires TermShape(t)
    ensures TermShape(t') && t'.cols == t.cols && t'.rows == t.rows
  {
    if b == 0x1b then t.(state := Escape, sequence := [])
    else if b == 0x18 || b == 0x1a then t.(state := Ground, sequence := [])
    else if 0x40 <= b <= 0x7e then ExecuteCsi(t, b as char, t.sequence).(state := Ground)
    else if 0x20 <= b <= 0x3f && |t.sequence| < SEQUENCE_LIMIT then t.(sequence := t.sequence + [b])
    else if |t.sequence| >= SEQUENCE_LIMIT then t.(state := DiscardCsi, sequence := [])
    else t
  }

  predicate Cancels(b: Byte) {
    b == 0x18 || b == 0x1a
  }

  /** A byte in any state but ground and string-escape, after the length check. */
  function Dispatch(t: Term, b: Byte): (t': Term)
    requires TermShape(t)
    ensures TermShape(t') && t'.cols == t.cols && t'.rows == t.rows
  {
    match t.state
    case Escape => EscapeByte(t, b)
    case Csi => CsiByte(t, b)
    case Osc =>
      if Cancels(b) || b == 0x07 then t.(state := Ground) else if b == 0x1b then t.(state := StringEscape) else t
    case DiscardOsc =>
      if Cancels(b) || b == 0x07 then t.(state := Ground) else if b == 0x1b then t.(state := StringEscape) else t
    case Dcs => if Cancels(b) then t.(state := Ground) else if b == 0x1b then t.(state := StringEscape) else t
    case DiscardDcs => if Cancels(b) then t.(state := Ground) else if b == 0x1b then t.(state := StringEscape) else t
    case EscapeIntermediate => if 0x30 <= b <= 0x7e then t.(state := Ground) else t
    case DiscardCsi => if 0x40 <= b <= 0x7e || Cancels(b) then t.(state := Ground) else t
    case _ => t
  }

  predicate Discards(p: Parser) {
    p.DiscardCsi? || p.DiscardOsc? || p.DiscardDcs?
  }

  /** What an over-long sequence turns into. */
  function Overlong(p: Parser): Parser {
    match p
    case Csi => DiscardCsi
    case Osc => DiscardOsc
    case Dcs => DiscardDcs
    case _ => Ground
  }

  /** Counts a byte of a sequence and gives up on it past the limit. */
  function Counted(t: Term): (t': Term)
    requires TermShape(t)
    ensures TermShape(t') && t'.cols == t.cols && t'.rows == t.rows
  {
    if t.sequenceBytes < SEQUENCE_LIMIT then t.(sequenceBytes := t.sequenceBytes + 1)
    else t.(sequenceBytes := t.sequenceBytes + 1, state := Overlong(t.state), sequence := [])
  }

  /** A sequence given up for good is back in ground state, where its byte is dropped. */
  function CountedByte(t: Term, b: Byte): (t': Term)
    requires TermShape(t)
    ensures TermShape(t') && t'.cols == t.cols && t'.rows == t.rows
  {
    Dispatch(Counted(t), b)
  }

  function ConsumeEscape(t: Term, b: Byte): (t': Term)
    requires TermShape(t)
    ensures TermShape(t') && t'.cols == t.cols && t'.rows == t.rows
  {
    if t.state == StringEscape then
      if b as char == '\\' then t.(state := Ground)
      else if b == 0x1b then t.(state := Escape, sequenceBytes := 0)
      else CountedByte(t.(state := Escape), b)
    else if Discards(t.state) then Dispatch(t, b)
    else CountedByte(t, b)
  }

  function ConsumeControl(t: Term, b: Byte): (t': Term)
    requires TermShape(t)
    ensures TermShape(t') && t'.cols == t.cols && t'.rows == t.rows
  {
    if b == 0x1b then
      WithCurrent(t, Current(t).(joinNext := false)).(state := Escape, sequenceBytes := 0)
    else WithCurrent(t, ControlChar(Current(t), t.cols, t.rows, b))
  }

  function PutRune(t: Term, ch: Rune): (t': Term)
    requires TermShape(t)
    ensures TermShape(t') && t'.cols == t.cols && t'.rows == t.rows
  {
    WithCurrent(t, Put(Current(t), t.cols, t.rows, ch))
  }

  /** What the next unit of input is, and how many bytes it takes. */
  function UnitSize(t: Term, data: seq<Byte>): (n: nat)
    requires |data| > 0
    ensures 1 <= n <= |data|
  {
    if t.state != Ground || data[0] < RUNE_SELF then 1 else DecodeRune(data).size
  }

  /** The terminal after that unit. Broken encodings and C1 controls leave no trace. */
  function Consume(t: Term, data: seq<Byte>): (t': Term)
    requires TermShape(t) && |data| > 0
    ensures TermShape(t') && t'.cols == t.cols && t'.rows == t.rows
  {
    if t.state != Ground then ConsumeEscape(t, data[0])
    else if data[0] < RUNE_SELF then ConsumeControl(t, data[0])
    else
      var d := DecodeRune(data);
      if d == INVALID || 0x80 <= d.rune <= 0x9f then t else PutRune(t, d.rune)
  }

  predicate MustWait(t: Term, data: seq<Byte>)
    requires |data| > 0
  {
    t.state == Ground && data[0] >= RUNE_SELF && Incomplete(data)
  }

  function Run(t: Term, data: seq<Byte>): (t': Term)
    requires TermShape(t)
    ensures TermShape(t') && t'.cols == t.cols && t'.rows == t.rows
    decreases |data|
  {
    if data == [] then t
    else if MustWait(t, data) then t.(utf8Pending := data)
    else Run(Consume(t, data), data[UnitSize(t, data)..])
  }

  function Write(t: Term, data: seq<Byte>): (t': Term)
    requires TermShape(t)
    ensures TermShape(t') && t'.cols == t.cols && t'.rows == t.rows
  {
    Run(t.(utf8Pending := []), t.utf8Pending + data)
  }

  // ---- resizing ----

  function ResizeRow(r: Row, cols: nat): (r': Row)
    ensures |r'| == cols
  {
    var kept := Min(cols, |r|);
    Repair(r[..kept] + Blanks(cols - kept))
  }

  function ResizeGrid(g: Grid, cols: nat, rows: nat): (g': Grid)
    ensures GridShape(g', cols, rows)
  {
    seq(rows, r requires 0 <= r < rows => if r < |g| then ResizeRow(g[r], cols) else Repair(Blanks(cols)))
  }

  function ResizeScreen(s: Screen, cols: nat, rows: nat): (s': Screen)
    requires cols >= 1 && rows >= 1
    ensures Shape(s', cols, rows)
  {
    s.(cells := ResizeGrid(s.cells, cols, rows),
       row := Clamp(s.row, 0, rows - 1), col := Clamp(s.col, 0, cols - 1),
       savedRow := Clamp(s.savedRow, 0, rows - 1), savedCol := Clamp(s.savedCol, 0, cols - 1),
       scrollTop := 0, scrollBottom := rows - 1, pendingWrap := false)
  }

  function Resize(t: Term, cols: int, rows: int): (t': Term)
    requires TermShape(t)
    ensures TermShape(t')
  {
    var c := Max(1, cols);
    var r := Max(1, rows);
    t.(cols := c, rows := r, primary := ResizeScreen(t.primary, c, r), alternate := ResizeScreen(t.alternate, c, r))
  }
}
