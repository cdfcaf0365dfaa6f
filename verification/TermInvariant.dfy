/** What every byte stream keeps: both halves of every wide character stay together, on both
    screens (internal/supervisor/vterm.go, lines 130-358, 563-661, 707-738). */
module TermInvariant {
  import opened Utf8
  import opened CsiParams
  import opened TermModel
  import opened TermChunks

  /** Each continuation directly follows a wide owner and each wide owner is followed by its
      continuation. A one-column row holds no continuation at all. */
  predicate RowOk(r: Row) {
    && (forall c :: 0 <= c < |r| && r[c].continuation ==> r[c].text == [])
    && (if |r| < 2 then forall c :: 0 <= c < |r| ==> !r[c].continuation
        else forall c :: 0 <= c < |r| ==> !Orphan(r, c))
  }

  predicate GridOk(g: Grid) {
    forall r :: 0 <= r < |g| ==> RowOk(g[r])
  }

  /** A pending joiner has a character to join to, or nothing at all before the cursor. */
  predicate JoinOk(s: Screen)
    requires 0 <= s.row < |s.cells| && 0 <= s.col < |s.cells[s.row]|
  {
    s.joinNext ==> PreviousCell(s) >= 0 ==> s.cells[s.row][PreviousCell(s)].text != []
  }

  predicate Inv(t: Term) {
    && TermShape(t)
    && GridOk(t.primary.cells) && GridOk(t.alternate.cells)
    && !Other(t).joinNext
    && (t.state != Ground ==> !Current(t).joinNext)
    && JoinOk(Current(t))
  }

  // ---- rows ----

  lemma BlanksOk(n: nat)
    ensures RowOk(Blanks(n))
  {
  }

  lemma EraseWideOk(r: Row, col: int)
    requires RowOk(r)
    ensures RowOk(EraseWide(r, col))
  {
    if 0 <= col < |r| && |r| >= 2 {
      var r' := EraseWide(r, col);
      assert !Orphan(r, col);
      if col + 1 < |r| { assert !Orphan(r, col + 1); }
      forall c | 0 <= c < |r|
        ensures !Orphan(r', c)
      {
        assert !Orphan(r, c);
        if c > 0 { assert !Orphan(r, c - 1); }
        if c + 1 < |r| { assert !Orphan(r, c + 1); }
      }
    }
  }

  lemma {:induction false} EraseRangeOk(r: Row, from: int, stop: int)
    requires RowOk(r)
    ensures RowOk(EraseRange(r, from, stop))
    decreases stop - from
  {
    if from < stop {
      EraseWideOk(r, from);
      EraseRangeOk(EraseWide(r, from), from + 1, stop);
    }
  }

  predicate Clean(r: Row) {
    forall c :: 0 <= c < |r| && r[c].continuation ==> r[c].text == []
  }

  /** Left-to-right repair pairs up any row whatsoever. */
  lemma {:induction false} RepairFromOk(r: Row, col: nat)
    requires Clean(r) && |r| >= 2 && col <= |r|
    requires forall c :: 0 <= c < col ==> !Orphan(r, c)
    ensures RowOk(RepairFrom(r, col))
    decreases |r| - col
  {
    if col < |r| {
      var r1 := if Orphan(r, col) then r[col := BLANK] else r;
      forall c | 0 <= c < col + 1
        ensures !Orphan(r1, c)
      {
        if c < col { assert !Orphan(r, c); }
      }
      RepairFromOk(r1, col + 1);
    }
  }

  /** Cells that were already paired survive the repair: a sound row is a fixed point. */
  lemma {:induction false} RepairKeepsSound(r: Row, col: nat)
    requires RowOk(r) && |r| >= 2
    ensures RepairFrom(r, col) == r
    decreases |r| - col
  {
    if col < |r| {
      RepairKeepsSound(r, col + 1);
    }
  }

  lemma RepairOk(r: Row)
    requires Clean(r)
    requires |r| < 2 ==> forall c :: 0 <= c < |r| ==> !r[c].continuation
    ensures RowOk(Repair(r))
  {
    if |r| >= 2 {
      RepairFromOk(r, 0);
    }
  }

  lemma PrintIntoOk(r: Row, col: int, ch: Rune, w: nat, faint: bool)
    requires RowOk(r) && 1 <= w <= 2 && 0 <= col && col + w <= |r|
    requires |r| >= 2 ==> w == RuneWidth(ch)
    ensures RowOk(PrintInto(r, col, ch, w, faint))
  {
    EraseWideOk(r, col);
    var r1 := EraseWide(r, col);
    EraseWideOk(r1, col + 1);
    var r2 := if w == 2 then EraseWide(r1, col + 1) else r1;
    var r' := PrintInto(r, col, ch, w, faint);
    if |r| >= 2 {
      forall c | 0 <= c < |r|
        ensures !Orphan(r', c)
      {
        assert !Orphan(r2, c);
        if c > 0 { assert !Orphan(r2, c - 1); }
        if c + 1 < |r| { assert !Orphan(r2, c + 1); }
      }
    }
  }

  // ---- screens ----

  lemma ScrollOk(s: Screen, cols: int, rows: int, from: int, n: nat)
    requires Shape(s, cols, rows) && GridOk(s.cells)
    ensures GridOk(ScrollUpAt(s, cols, rows, from, n).cells)
    ensures GridOk(ScrollDownAt(s, cols, rows, from, n).cells)
  {
    if s.scrollTop <= from <= s.scrollBottom {
      var k := Min(n, s.scrollBottom - from + 1);
      BlanksOk(cols);
      SlicesOk(s.cells, from, s.scrollBottom, k, cols);
    }
  }

  lemma SlicesOk(g: Grid, from: int, bottom: int, n: int, cols: nat)
    requires 0 <= from <= bottom < |g| && 0 <= n <= bottom - from + 1 && GridOk(g) && RowOk(Blanks(cols))
    ensures GridOk(ShiftUp(g, from, bottom, n, cols)) && GridOk(ShiftDown(g, from, bottom, n, cols))
  {
  }

  lemma LineFeedOk(s: Screen, cols: int, rows: int)
    requires Shape(s, cols, rows) && GridOk(s.cells)
    ensures GridOk(LineFeed(s, cols, rows).cells) && LineFeed(s, cols, rows).joinNext == s.joinNext
  {
    ScrollOk(s, cols, rows, s.scrollTop, 1);
  }

  lemma AttachOk(s: Screen, cols: int, rows: int, ch: Rune)
    requires Shape(s, cols, rows) && GridOk(s.cells) && JoinOk(s)
    requires RuneWidth(ch) == 0 || s.joinNext
    ensures GridOk(Attach(s, cols, rows, ch).cells) && JoinOk(Attach(s, cols, rows, ch))
  {
    var r := s.cells[s.row];
    assert RowOk(r);
    var c := PreviousCell(s);
    if c >= 0 {
      var before := if s.pendingWrap then s.col else s.col - 1;
      assert |r| >= 2 ==> !Orphan(r, before);
      assert !r[c].continuation;
      AppendOk(r, c, ch);
    }
  }

  lemma AppendOk(r: Row, c: int, ch: Rune)
    requires RowOk(r) && 0 <= c < |r| && !r[c].continuation
    requires r[c].text != [] || RuneWidth(ch) != 2
    ensures RowOk(r[c := r[c].(text := r[c].text + [ch])])
  {
    var cell := r[c].(text := r[c].text + [ch]);
    assert Wide(cell) == Wide(r[c]);
    var r' := r[c := cell];
    forall k | 0 <= k < |r| && |r| >= 2
      ensures !Orphan(r', k)
    {
      assert !Orphan(r, k);
    }
  }

  lemma SettleOk(s: Screen, cols: int, rows: int, w: nat)
    requires Shape(s, cols, rows) && GridOk(s.cells) && 1 <= w <= 2 && w <= cols
    ensures GridOk(Settle(s, cols, rows, w).cells) && Settle(s, cols, rows, w).joinNext == s.joinNext
  {
    var s1 := if s.pendingWrap then Wrapped(s.(pendingWrap := false), cols, rows) else s;
    if s.pendingWrap {
      LineFeedOk(s.(pendingWrap := false).(col := 0), cols, rows);
    }
    if w == 2 && s1.col == cols - 1 {
      LineFeedOk(s1.(col := 0), cols, rows);
    }
  }

  lemma PutOk(s: Screen, cols: int, rows: int, ch: Rune)
    requires Shape(s, cols, rows) && GridOk(s.cells) && JoinOk(s)
    ensures GridOk(Put(s, cols, rows, ch).cells) && JoinOk(Put(s, cols, rows, ch))
  {
    if RuneWidth(ch) == 0 || s.joinNext {
      AttachOk(s, cols, rows, ch);
    } else {
      var w := CellsTaken(ch, cols);
      SettleOk(s, cols, rows, w);
      var s1 := Settle(s, cols, rows, w);
      PrintIntoOk(s1.cells[s1.row], s1.col, ch, w, s1.faint);
    }
  }

  lemma ControlCharOk(s: Screen, cols: int, rows: int, b: Byte)
    requires Shape(s, cols, rows) && GridOk(s.cells)
    ensures GridOk(ControlChar(s, cols, rows, b).cells) && JoinOk(ControlChar(s, cols, rows, b))
  {
    var s1 := s.(joinNext := false);
    if b == 0x0a || b == 0x0b || b == 0x0c {
      LineFeedOk(s1, cols, rows);
    } else if b >= 0x20 && b != 0x7f {
      PutOk(s1, cols, rows, b);
    }
  }

  lemma EraseLineOk(s: Screen, cols: int, rows: int, mode: nat)
    requires Shape(s, cols, rows) && GridOk(s.cells)
    ensures GridOk(EraseLine(s, cols, rows, mode).cells) && EraseLine(s, cols, rows, mode).joinNext == s.joinNext
  {
    var r := s.cells[s.row];
    if mode == 0 { EraseRangeOk(r, s.col, cols); }
    if mode == 1 { EraseRangeOk(r, 0, s.col + 1); }
    if mode == 2 { EraseRangeOk(r, 0, cols); }
  }

  lemma EraseDisplayOk(s: Screen, cols: int, rows: int, mode: nat)
    requires Shape(s, cols, rows) && GridOk(s.cells)
    ensures GridOk(EraseDisplay(s, cols, rows, mode).cells) && EraseDisplay(s, cols, rows, mode).joinNext == s.joinNext
  {
    BlanksOk(cols);
    if mode == 0 {
      EraseLineOk(s, cols, rows, 0);
    } else if mode == 1 {
      EraseLineOk(s.(cells := ClearRows(s.cells, 0, s.row, cols)), cols, rows, 1);
    }
  }

  lemma ShiftCharsOk(s: Screen, cols: int, rows: int, n: nat, insert: bool)
    requires Shape(s, cols, rows) && GridOk(s.cells)
    ensures GridOk(ShiftChars(s, cols, rows, n, insert).cells)
    ensures ShiftChars(s, cols, rows, n, insert).joinNext == s.joinNext
  {
    ShiftedRowOk(s.cells[s.row], s.col, Min(n, cols - s.col), insert);
  }

  lemma ShiftedRowOk(r: Row, c: int, n: int, insert: bool)
    requires RowOk(r) && 0 <= c <= c + n <= |r|
    ensures RowOk(Repair(if insert then InsertChars(r, c, n) else DeleteChars(r, c, n)))
  {
    ShiftedClean(r, c, n, insert);
    RepairOk(if insert then InsertChars(r, c, n) else DeleteChars(r, c, n));
  }

  /** Insertion and deletion only move cells or blank them. */
  lemma ShiftedCells(r: Row, c: int, n: int, k: int)
    requires 0 <= c <= c + n <= |r| && 0 <= k < |r|
    ensures InsertChars(r, c, n)[k] == if k < c then r[k] else if k < c + n then BLANK else r[k - n]
    ensures DeleteChars(r, c, n)[k] == if k < c then r[k] else if k < |r| - n then r[k + n] else BLANK
  {
  }

  lemma ShiftedClean(r: Row, c: int, n: int, insert: bool)
    requires Clean(r) && 0 <= c <= c + n <= |r|
    requires |r| < 2 ==> forall k :: 0 <= k < |r| ==> !r[k].continuation
    ensures var q := if insert then InsertChars(r, c, n) else DeleteChars(r, c, n);
            Clean(q) && (|r| < 2 ==> forall k :: 0 <= k < |r| ==> !q[k].continuation)
  {
    var q := if insert then InsertChars(r, c, n) else DeleteChars(r, c, n);
    forall k | 0 <= k < |r|
      ensures q[k].continuation ==> q[k].text == [] && |r| >= 2
    {
      ShiftedCells(r, c, n, k);
    }
  }

  lemma EditLinesOk(s: Screen, cols: int, rows: int, final: char, params: seq<nat>)
    requires Shape(s, cols, rows) && GridOk(s.cells)
    ensures GridOk(EditLines(s, cols, rows, final, params).cells)
    ensures EditLines(s, cols, rows, final, params).joinNext == s.joinNext
  {
    var n := Param(params, 0, 1);
    match final
    case 'J' => EraseDisplayOk(s, cols, rows, Param(params, 0, 0));
    case 'K' => EraseLineOk(s, cols, rows, Param(params, 0, 0));
    case 'S' => ScrollOk(s, cols, rows, s.scrollTop, n);
    case 'T' => ScrollOk(s, cols, rows, s.scrollTop, n);
    case 'L' => ScrollOk(s, cols, rows, s.row, n);
    case 'M' => ScrollOk(s, cols, rows, s.row, n);
    case '@' => ShiftCharsOk(s, cols, rows, n, true);
    case 'P' => ShiftCharsOk(s, cols, rows, n, false);
    case 'X' => EraseRangeOk(s.cells[s.row], s.col, Min(cols, s.col + n));
    case _ =>
  }

  lemma PlainCsiOk(s: Screen, cols: int, rows: int, final: char, raw: seq<Byte>)
    requires Shape(s, cols, rows) && GridOk(s.cells) && !s.joinNext
    ensures GridOk(PlainCsi(s, cols, rows, final, raw).cells) && !PlainCsi(s, cols, rows, final, raw).joinNext
  {
    if final !in "mrsu" && !Repositions(final) {
      EditLinesOk(s, cols, rows, final, Params(raw));
    }
  }

  // ---- the terminal ----

  /** Between escape bytes nothing waits to be joined, on either screen. */
  predicate Quiet(t: Term) {
    && TermShape(t)
    && GridOk(t.primary.cells) && GridOk(t.alternate.cells)
    && !t.primary.joinNext && !t.alternate.joinNext
  }

  lemma QuietIsInv(t: Term)
    requires Quiet(t)
    ensures Inv(t)
  {
  }

  lemma NewScreenOk(cols: nat, rows: nat)
    requires cols >= 1 && rows >= 1
    ensures GridOk(NewScreen(cols, rows).cells) && !NewScreen(cols, rows).joinNext
  {
    BlanksOk(cols);
  }

  lemma {:induction false} SwitchScreensQuiet(t: Term, enable: bool, params: seq<nat>)
    requires Quiet(t)
    ensures Quiet(SwitchScreens(t, enable, params))
    decreases |params|
  {
    if params != [] {
      NewScreenOk(t.cols, t.rows);
      SwitchScreensQuiet(SwitchScreen(t, enable, params[0]), enable, params[1..]);
    }
  }

  lemma PrivateCsiQuiet(t: Term, final: char, raw: seq<Byte>)
    requires Quiet(t)
    ensures Quiet(PrivateCsi(t, final, raw))
  {
    EraseDisplayOk(Current(t), t.cols, t.rows, PrivateEraseMode(raw));
    EraseLineOk(Current(t), t.cols, t.rows, PrivateEraseMode(raw));
    SwitchScreensQuiet(t, final == 'h', Params(raw));
  }

  lemma ExecuteCsiQuiet(t: Term, final: char, raw: seq<Byte>)
    requires Quiet(t)
    ensures Quiet(ExecuteCsi(t, final, raw))
  {
    if |raw| > 0 && PrivatePrefix(raw[0]) {
      PrivateCsiQuiet(t, final, raw[1..]);
    } else if Plain(raw) {
      PlainCsiOk(Current(t), t.cols, t.rows, final, raw);
    }
  }

  lemma EscapeScreenOk(s: Screen, cols: int, rows: int, b: char)
    requires Shape(s, cols, rows) && GridOk(s.cells) && !s.joinNext
    ensures GridOk(EscapeScreen(s, cols, rows, b).cells) && !EscapeScreen(s, cols, rows, b).joinNext
  {
    match b
    case 'D' => LineFeedOk(s, cols, rows);
    case 'E' => LineFeedOk(s.(col := 0), cols, rows);
    case 'M' => ScrollOk(s, cols, rows, s.scrollTop, 1);
    case _ =>
  }

  lemma EscapeByteQuiet(t: Term, b: Byte)
    requires Quiet(t)
    ensures Quiet(EscapeByte(t, b))
  {
    NewScreenOk(t.cols, t.rows);
    EscapeScreenOk(Current(t), t.cols, t.rows, b as char);
  }

  lemma DispatchQuiet(t: Term, b: Byte)
    requires Quiet(t)
    ensures Quiet(Dispatch(t, b))
  {
    if t.state == Escape {
      EscapeByteQuiet(t, b);
    } else if t.state == Csi && 0x40 <= b <= 0x7e {
      ExecuteCsiQuiet(t, b as char, t.sequence);
    }
  }

  lemma ConsumeEscapeQuiet(t: Term, b: Byte)
    requires Quiet(t)
    ensures Quiet(ConsumeEscape(t, b))
  {
    if t.state == StringEscape {
      CountedByteQuiet(t.(state := Escape), b);
    } else if Discards(t.state) {
      DispatchQuiet(t, b);
    } else {
      CountedByteQuiet(t, b);
    }
  }

  lemma CountedByteQuiet(t: Term, b: Byte)
    requires Quiet(t)
    ensures Quiet(CountedByte(t, b))
  {
    DispatchQuiet(Counted(t), b);
  }

  lemma ConsumeControlInv(t: Term, b: Byte)
    requires Inv(t) && t.state == Ground
    ensures Inv(ConsumeControl(t, b))
  {
    if b != 0x1b {
      ControlCharOk(Current(t), t.cols, t.rows, b);
    }
  }

  lemma PutRuneInv(t: Term, ch: Rune)
    requires Inv(t) && t.state == Ground
    ensures Inv(PutRune(t, ch))
  {
    PutOk(Current(t), t.cols, t.rows, ch);
  }

  lemma ConsumeInv(t: Term, data: seq<Byte>)
    requires Inv(t) && |data| > 0
    ensures Inv(Consume(t, data))
  {
    if t.state != Ground {
      ConsumeEscapeQuiet(t, data[0]);
      QuietIsInv(ConsumeEscape(t, data[0]));
    } else if data[0] < RUNE_SELF {
      ConsumeControlInv(t, data[0]);
    } else {
      PutRuneInv(t, DecodeRune(data).rune);
    }
  }

  lemma {:induction false} RunInv(t: Term, data: seq<Byte>)
    requires Inv(t)
    ensures Inv(Run(t, data))
    decreases |data|
  {
    if data != [] && !MustWait(t, data) {
      ConsumeInv(t, data);
      RunInv(Consume(t, data), data[UnitSize(t, data)..]);
    }
  }

  /** No byte stream separates the halves of a wide character. */
  lemma WriteInv(t: Term, data: seq<Byte>)
    requires Inv(t)
    ensures Inv(Write(t, data))
  {
    RunInv(t.(utf8Pending := []), t.utf8Pending + data);
  }

  lemma NewTermInv(cols: int, rows: int)
    ensures Inv(NewTerm(cols, rows))
  {
    NewScreenOk(Max(1, cols), Max(1, rows));
  }

  /** Everything a terminal can become by writing to it, however the stream is cut. */
  lemma {:induction false} EveryStreamSafe(cols: int, rows: int, chunks: seq<seq<Byte>>)
    ensures Inv(WriteAll(NewTerm(cols, rows), chunks))
  {
    NewTermInv(cols, rows);
    AnyChunking(NewTerm(cols, rows), chunks);
    WriteInv(NewTerm(cols, rows), Concat(chunks));
  }

  // ---- resizing ----

  /** What a caller can check before resizing: where the cursor will be cut off to, a pending joiner
      has nothing before it, the second half of a wide character, or text. */
  predicate JoinSurvives(s: Screen, cols: nat, rows: nat)
    requires 0 <= s.row < |s.cells| && 0 <= s.col < |s.cells[s.row]| && cols >= 1 && rows >= 1
    requires forall r :: 0 <= r < |s.cells| ==> |s.cells[r]| == |s.cells[s.row]|
  {
    var r, c := Min(s.row, rows - 1), Min(s.col, cols - 1);
    s.joinNext ==> c == 0 || s.cells[r][c - 1].continuation || s.cells[r][c - 1].text != []
  }

  /** Repairing a row with at most one lone owner touches that cell only. */
  lemma {:induction false} RepairLoneOwner(r: Row, col: nat, lone: nat)
    requires |r| >= 2 && lone < |r| && !r[lone].continuation
    requires forall c :: 0 <= c < |r| && c != lone ==> !Orphan(r, c)
    ensures forall c :: 0 <= c < |r| && c != lone ==> RepairFrom(r, col)[c] == r[c]
    decreases |r| - col
  {
    if col < |r| {
      if Orphan(r, col) {
        var r1 := r[col := BLANK];
        forall c | 0 <= c < |r| && c != lone ensures !Orphan(r1, c) {
          assert !Orphan(r, c);
        }
        RepairLoneOwner(r1, col + 1, lone);
      } else {
        RepairLoneOwner(r, col + 1, lone);
      }
    }
  }

  /** Resizing a sound row keeps every cell that stays, except perhaps the last of a row cut short. */
  lemma ResizeRowKeeps(row: Row, cols: nat, c: nat)
    requires RowOk(row) && |row| >= 2 && cols >= 2
    requires c < |row| && c < cols && (cols < |row| ==> c < cols - 1)
    ensures ResizeRow(row, cols)[c] == row[c]
  {
    var kept := Min(cols, |row|);
    var cut := row[..kept] + Blanks(cols - kept);
    forall i | 0 <= i < cols && i != kept - 1 ensures !Orphan(cut, i) {
      if i < kept {
        assert !Orphan(row, i);
      } else if i == kept {
        assert !Orphan(row, kept - 1);
      }
    }
    assert !Orphan(row, kept - 1);
    if Orphan(cut, kept - 1) {
      assert !cut[kept - 1].continuation && kept < |row|;
      RepairLoneOwner(cut, 0, kept - 1);
    } else {
      RepairPaired(cut, 0);
    }
  }

  lemma {:induction false} RepairPaired(r: Row, col: nat)
    requires |r| >= 2 && forall c :: 0 <= c < |r| ==> !Orphan(r, c)
    ensures RepairFrom(r, col) == r
    decreases |r| - col
  {
    if col < |r| {
      RepairPaired(r, col + 1);
    }
  }

  lemma ResizeScreenOk(s: Screen, c0: int, r0: int, cols: nat, rows: nat)
    requires Shape(s, c0, r0) && GridOk(s.cells) && cols >= 1 && rows >= 1
    ensures GridOk(ResizeScreen(s, cols, rows).cells)
  {
    forall r | 0 <= r < rows
      ensures RowOk(ResizeGrid(s.cells, cols, rows)[r])
    {
      if r < |s.cells| {
        var row := s.cells[r];
        assert RowOk(row);
        assert !row[0].continuation by { assert |row| >= 2 ==> !Orphan(row, 0); }
        RepairOk(row[..Min(cols, |row|)] + Blanks(cols - Min(cols, |row|)));
      } else {
        RepairOk(Blanks(cols));
      }
    }
  }

  /** The resized screen's joiner has something to join to exactly when the screen before says so. */
  lemma JoinAfterResize(s: Screen, c0: int, r0: int, cols: nat, rows: nat)
    requires Shape(s, c0, r0) && GridOk(s.cells) && cols >= 1 && rows >= 1
    ensures JoinOk(ResizeScreen(s, cols, rows)) <==> JoinSurvives(s, cols, rows)
  {
    var s' := ResizeScreen(s, cols, rows);
    var r, c := Min(s.row, rows - 1), Min(s.col, cols - 1);
    assert s'.row == r && s'.col == c;
    if c > 0 {
      assert RowOk(s.cells[r]);
      ResizeRowKeeps(s.cells[r], cols, c - 1);
      ResizeScreenOk(s, c0, r0, cols, rows);
      assert s'.cells[r] == ResizeRow(s.cells[r], cols) && RowOk(s'.cells[r]);
      assert !Orphan(s'.cells[r], c - 1);
    }
  }

  /** Resizing always re-pairs the grids; it keeps the whole invariant exactly when a pending
      joiner survives it. */
  lemma ResizeExact(t: Term, cols: int, rows: int)
    requires Inv(t)
    ensures GridOk(Resize(t, cols, rows).primary.cells) && GridOk(Resize(t, cols, rows).alternate.cells)
    ensures Inv(Resize(t, cols, rows)) <==> JoinSurvives(Current(t), Max(1, cols), Max(1, rows))
  {
    var c, r := Max(1, cols), Max(1, rows);
    ResizeScreenOk(t.primary, t.cols, t.rows, c, r);
    ResizeScreenOk(t.alternate, t.cols, t.rows, c, r);
    assert Current(Resize(t, cols, rows)) == ResizeScreen(Current(t), c, r);
    JoinAfterResize(Current(t), t.cols, t.rows, c, r);
  }

  /** A joiner with a blank before it turns the next wide character into half a one. */
  lemma TornByJoiner(s: Screen, cols: int, rows: int, wide: Rune)
    requires Shape(s, cols, rows) && cols >= 2 && GridOk(s.cells) && !s.pendingWrap
    requires s.joinNext && !JoinOk(s) && RuneWidth(wide) == 2
    ensures !GridOk(Put(s, cols, rows, wide).cells)
  {
    var row := s.cells[s.row];
    var c := s.col - 1;
    assert RowOk(row) && !Orphan(row, c);
    assert PreviousCell(s) == c && row[c].text == [] && !row[c].continuation;
    var row' := Put(s, cols, rows, wide).cells[s.row];
    assert row' == row[c := row[c].(text := row[c].text + [wide])];
    assert !Orphan(row, s.col);
    assert Orphan(row', c);
  }

  /** When it does not survive, the next wide character is torn: the failure is real. */
  lemma ResizeLosesPairing(t: Term, cols: int, rows: int, wide: Rune)
    requires Inv(t) && cols >= 2 && RuneWidth(wide) == 2
    requires !JoinSurvives(Current(t), cols, Max(1, rows))
    ensures !GridOk(Current(PutRune(Resize(t, cols, rows), wide)).cells)
  {
    var r := Max(1, rows);
    var s := ResizeScreen(Current(t), cols, r);
    assert s == Current(Resize(t, cols, rows));
    ResizeScreenOk(Current(t), t.cols, t.rows, cols, r);
    JoinAfterResize(Current(t), t.cols, t.rows, cols, r);
    TornByJoiner(s, cols, r, wide);
  }
}
