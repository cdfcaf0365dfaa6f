/** The terminal object: the byte loop, the escape parser and the two screens, in place
    (internal/supervisor/vterm.go, lines 49-285, 360-395, 535-562, 664-738). */
module Terminal {
  import opened Utf8
  import opened CsiParams
  import opened TermModel
  import opened TermScreen
  import opened TermChunks
  import opened TermInvariant
  import opened TermText

  class VirtualTerminal {
    var cols: int
    var rows: int
    var primary: ScreenBuffer
    var alternate: ScreenBuffer
    var useAlternate: bool
    var state: Parser
    var sequence: seq<Byte>
    var sequenceBytes: nat
    var utf8Pending: seq<Byte>

    ghost function View(): (t: Term)
      reads this, primary, alternate
    {
      Term(cols, rows, primary.View(), alternate.View(), useAlternate, state, sequence, sequenceBytes, utf8Pending)
    }

    /** The terminal, its screens and all their rows. */
    ghost function Repr(): (objects: set<object>)
      reads this, primary, alternate
    {
      {this} + primary.Repr + alternate.Repr
    }

    /** Both screens are sound and share neither themselves nor a row. */
    ghost predicate Valid()
      reads this, primary, alternate, primary.Repr, alternate.Repr
    {
      && this !in primary.Repr && this !in alternate.Repr && primary.Repr !! alternate.Repr
      && primary.Valid(cols, rows) && alternate.Valid(cols, rows)
      && TermShape(View())
    }

    constructor (c: int, r: int)
      ensures Valid() && fresh(Repr()) && View() == NewTerm(c, r)
    {
      cols, rows := Max(1, c), Max(1, r);
      primary := new ScreenBuffer(Max(1, c), Max(1, r));
      alternate := new ScreenBuffer(Max(1, c), Max(1, r));
      useAlternate, state, sequence, sequenceBytes, utf8Pending := false, Ground, [], 0, [];
    }

    function Screen(): (s: ScreenBuffer)
      reads this
    {
      if useAlternate then alternate else primary
    }

    /** Parser bookkeeping touches neither screen. */
    method SetParser(p: Parser, pending: seq<Byte>, counted: nat)
      requires Valid() && |pending| <= SEQUENCE_LIMIT
      modifies `state, `sequence, `sequenceBytes
      ensures Valid() && Repr() == old(Repr())
      ensures View() == old(View()).(state := p, sequence := pending, sequenceBytes := counted)
    {
      state, sequence, sequenceBytes := p, pending, counted;
    }

    method PutRune(ch: Rune)
      requires Valid()
      modifies Repr()
      ensures Valid() && fresh(Repr() - old(Repr()))
      ensures View() == TermModel.PutRune(old(View()), ch)
    {
      var s := Screen();
      s.Put(cols, rows, ch);
    }

    method ConsumeControl(b: Byte)
      requires Valid()
      modifies Repr()
      ensures Valid() && fresh(Repr() - old(Repr()))
      ensures View() == TermModel.ConsumeControl(old(View()), b)
    {
      var s := Screen();
      if b == 0x1b {
        s.joinNext := false;
        state := Escape;
        sequenceBytes := 0;
      } else {
        s.ControlChar(cols, rows, b);
      }
    }

    method RenewAlternate()
      requires Valid()
      modifies `alternate
      ensures Valid() && fresh(Repr() - old(Repr()))
      ensures View() == old(View()).(alternate := NewScreen(cols, rows))
    {
      alternate := new ScreenBuffer(cols, rows);
    }

    method RenewPrimary()
      requires Valid()
      modifies `primary
      ensures Valid() && fresh(Repr() - old(Repr()))
      ensures View() == old(View()).(primary := NewScreen(cols, rows))
    {
      primary := new ScreenBuffer(cols, rows);
    }

    method EnterAlternate(p: nat)
      requires Valid() && !useAlternate && (p == 47 || p == 1047 || p == 1049)
      modifies Repr()
      ensures Valid() && fresh(Repr() - old(Repr()))
      ensures View() == TermModel.SwitchScreen(old(View()), true, p)
    {
      if p == 1049 {
        primary.SaveCursor();
      }
      if p == 1049 || p == 1047 {
        RenewAlternate();
      }
      ShowAlternate();
    }

    method ShowAlternate()
      requires Valid() && !useAlternate
      modifies `useAlternate, alternate`faint
      ensures Valid() && Repr() == old(Repr())
      ensures View() == old(View()).(alternate := old(View()).alternate.(faint := primary.faint), useAlternate := true)
    {
      alternate.faint := primary.faint;
      useAlternate := true;
    }

    method LeaveAlternate(p: nat)
      requires Valid() && useAlternate && (p == 47 || p == 1047 || p == 1049)
      modifies Repr()
      ensures Valid() && fresh(Repr() - old(Repr()))
      ensures View() == TermModel.SwitchScreen(old(View()), false, p)
    {
      primary.faint := alternate.faint;
      useAlternate := false;
      if p == 1049 {
        primary.RestoreCursor(cols, rows);
      }
    }

    method SwitchScreen(enable: bool, p: nat)
      requires Valid()
      modifies Repr()
      ensures Valid() && fresh(Repr() - old(Repr()))
      ensures View() == TermModel.SwitchScreen(old(View()), enable, p)
    {
      if p == 47 || p == 1047 || p == 1049 {
        if enable && !useAlternate {
          EnterAlternate(p);
        } else if !enable && useAlternate {
          LeaveAlternate(p);
        }
      }
    }

    method SwitchScreens(enable: bool, params: seq<nat>)
      requires Valid()
      modifies Repr()
      ensures Valid() && fresh(Repr() - old(Repr()))
      ensures View() == TermModel.SwitchScreens(old(View()), enable, params)
    {
      for i := 0 to |params|
        invariant Valid() && fresh(Repr() - old(Repr()))
        invariant TermModel.SwitchScreens(View(), enable, params[i..]) ==
                    TermModel.SwitchScreens(old(View()), enable, params)
      {
        assert params[i..][1..] == params[i + 1..];
        SwitchScreen(enable, params[i]);
      }
    }

    method PrivateErase(final: char, mode: nat)
      requires Valid() && (final == 'J' || final == 'K')
      modifies Repr()
      ensures Valid() && fresh(Repr() - old(Repr()))
      ensures var t := old(View());
              View() == WithCurrent(t, if final == 'J' then EraseDisplay(Current(t), t.cols, t.rows, mode)
                                       else EraseLine(Current(t), t.cols, t.rows, mode))
    {
      var s := Screen();
      if final == 'J' {
        s.EraseDisplay(cols, rows, mode);
      } else {
        s.EraseLine(cols, rows, mode);
      }
    }

    method PrivateCsi(final: char, raw: seq<Byte>)
      requires Valid()
      modifies Repr()
      ensures Valid() && fresh(Repr() - old(Repr()))
      ensures View() == TermModel.PrivateCsi(old(View()), final, raw)
    {
      if final == 'J' || final == 'K' {
        PrivateErase(final, PrivateEraseMode(raw));
      } else if final == 'h' || final == 'l' {
        var params := ParseParams(raw);
        SwitchScreens(final == 'h', params);
      }
    }

    method ExecuteCsi(final: char, raw: seq<Byte>)
      requires Valid()
      modifies Repr()
      ensures Valid() && fresh(Repr() - old(Repr()))
      ensures View() == TermModel.ExecuteCsi(old(View()), final, raw)
    {
      if |raw| > 0 && PrivatePrefix(raw[0]) {
        if raw[0] as char == '?' {
          PrivateCsi(final, raw[1..]);
        }
        return;
      }
      if !Plain(raw) {
        return;
      }
      var s := Screen();
      s.ExecutePlain(cols, rows, final, raw);
    }

    method Reset()
      requires Valid()
      modifies this
      ensures Valid() && fresh(Repr() - old(Repr()))
      ensures View() ==
                old(View()).(primary := NewScreen(cols, rows), alternate := NewScreen(cols, rows),
                      useAlternate := false, state := Ground)
    {
      RenewPrimary();
      RenewAlternate();
      useAlternate := false;
      state := Ground;
    }

    method EscapeByte(b: Byte)
      requires Valid()
      modifies Repr()
      ensures Valid() && fresh(Repr() - old(Repr()))
      ensures View() == TermModel.EscapeByte(old(View()), b)
    {
      var c := b as char;
      if c == '[' {
        state, sequence, sequenceBytes := Csi, [], 0;
      } else if c == ']' {
        state, sequenceBytes := Osc, 0;
      } else if c in "P^_" {
        state, sequenceBytes := Dcs, 0;
      } else if c in " ()*+-./#" {
        state := EscapeIntermediate;
      } else if c == 'c' {
        Reset();
      } else {
        var s := Screen();
        s.EscapeScreen(cols, rows, c);
        state := Ground;
      }
    }

    method CsiByte(b: Byte)
      requires Valid()
      modifies Repr()
      ensures Valid() && fresh(Repr() - old(Repr()))
      ensures View() == TermModel.CsiByte(old(View()), b)
    {
      if b == 0x1b {
        state, sequence := Escape, [];
      } else if b == 0x18 || b == 0x1a {
        state, sequence := Ground, [];
      } else if 0x40 <= b <= 0x7e {
        ExecuteCsi(b as char, sequence);
        state := Ground;
      } else if 0x20 <= b <= 0x3f && |sequence| < SEQUENCE_LIMIT {
        sequence := sequence + [b];
      } else if |sequence| >= SEQUENCE_LIMIT {
        state, sequence := DiscardCsi, [];
      }
    }

    method Dispatch(b: Byte)
      requires Valid()
      modifies Repr()
      ensures Valid() && fresh(Repr() - old(Repr()))
      ensures View() == TermModel.Dispatch(old(View()), b)
    {
      if state == Escape {
        EscapeByte(b);
      } else if state == Csi {
        CsiByte(b);
      } else if state == EscapeIntermediate {
        if 0x30 <= b <= 0x7e { state := Ground; }
      } else if state == DiscardCsi {
        if 0x40 <= b <= 0x7e || Cancels(b) { state := Ground; }
      } else if state.Osc? || state.DiscardOsc? || state.Dcs? || state.DiscardDcs? {
        StringByte(b);
      }
    }

    /** A byte of an operating-system or device control string, kept or discarded. */
    method StringByte(b: Byte)
      requires Valid() && (state.Osc? || state.DiscardOsc? || state.Dcs? || state.DiscardDcs?)
      modifies `state
      ensures Valid() && View() == TermModel.Dispatch(old(View()), b)
    {
      if Cancels(b) || (b == 0x07 && (state.Osc? || state.DiscardOsc?)) {
        state := Ground;
      } else if b == 0x1b {
        state := StringEscape;
      }
    }

    method CountByte()
      requires Valid()
      modifies `state, `sequence, `sequenceBytes
      ensures Valid() && Repr() == old(Repr()) && View() == Counted(old(View()))
    {
      if sequenceBytes < SEQUENCE_LIMIT {
        SetParser(state, sequence, sequenceBytes + 1);
      } else {
        SetParser(Overlong(state), [], sequenceBytes + 1);
      }
    }

    method CountedByte(b: Byte)
      requires Valid()
      modifies Repr()
      ensures Valid() && fresh(Repr() - old(Repr()))
      ensures View() == TermModel.CountedByte(old(View()), b)
    {
      CountByte();
      if state != Ground {
        Dispatch(b);
      }
    }

    method ConsumeEscape(b: Byte)
      requires Valid()
      modifies Repr()
      ensures Valid() && fresh(Repr() - old(Repr()))
      ensures View() == TermModel.ConsumeEscape(old(View()), b)
    {
      if state == StringEscape {
        if b as char == '\\' {
          state := Ground;
        } else if b == 0x1b {
          state, sequenceBytes := Escape, 0;
        } else {
          state := Escape;
          CountedByte(b);
        }
      } else if Discards(state) {
        Dispatch(b);
      } else {
        CountedByte(b);
      }
    }

    /** Consumes one unit of input: an escape byte, an ASCII byte or a rune. */
    method Consume(data: seq<Byte>) returns (n: nat)
      requires Valid() && |data| > 0 && !MustWait(View(), data)
      modifies Repr()
      ensures Valid() && fresh(Repr() - old(Repr()))
      ensures View() == TermModel.Consume(old(View()), data) && n == UnitSize(old(View()), data)
    {
      if state != Ground {
        ConsumeEscape(data[0]);
        return 1;
      }
      if data[0] < RUNE_SELF {
        ConsumeControl(data[0]);
        return 1;
      }
      var d := DecodeRune(data);
      n := d.size;
      if d == INVALID || 0x80 <= d.rune <= 0x9f {
        return;
      }
      PutRune(d.rune);
    }

    /** Refines the value-level Write: after any chunk the object is exactly that terminal, every
        index was in range, no two rows alias, and all input was taken. */
    method Write(chunk: seq<Byte>) returns (n: nat)
      requires Valid()
      modifies Repr()
      ensures Valid() && fresh(Repr() - old(Repr()))
      ensures View() == TermModel.Write(old(View()), chunk) && n == |chunk|
      ensures Inv(old(View())) ==> Inv(View())
    {
      if Inv(View()) {
        WriteInv(View(), chunk);
      }
      n := |chunk|;
      var data := utf8Pending + chunk;
      HoldBack([]);
      Feed(data);
    }

    method HoldBack(bytes: seq<Byte>)
      requires Valid()
      modifies `utf8Pending
      ensures Valid() && Repr() == old(Repr()) && View() == old(View()).(utf8Pending := bytes)
    {
      utf8Pending := bytes;
    }

    method Feed(input: seq<Byte>)
      requires Valid()
      modifies Repr()
      ensures Valid() && fresh(Repr() - old(Repr()))
      ensures View() == Run(old(View()), input)
    {
      var data := input;
      while |data| > 0
        invariant Valid() && fresh(Repr() - old(Repr()))
        invariant Run(View(), data) == Run(old(View()), input)
        decreases |data|
      {
        if state == Ground && data[0] >= RUNE_SELF && Incomplete(data) {
          HoldBack(data);
          return;
        }
        data := ConsumeUnit(data);
      }
    }

    /** One turn of the byte loop: the rest of the input leads where all of it did. */
    method ConsumeUnit(data: seq<Byte>) returns (rest: seq<Byte>)
      requires Valid() && |data| > 0 && !MustWait(View(), data)
      modifies Repr()
      ensures Valid() && fresh(Repr() - old(Repr()))
      ensures |rest| < |data| && Run(View(), rest) == Run(old(View()), data)
    {
      RunStep(View(), data);
      var n := Consume(data);
      rest := data[n..];
    }

    method Resize(c: int, r: int)
      requires Valid()
      modifies Repr()
      ensures Valid() && fresh(Repr() - old(Repr()))
      ensures View() == TermModel.Resize(old(View()), c, r)
    {
      cols, rows := Max(1, c), Max(1, r);
      primary.ResizeTo(cols, rows);
      alternate.ResizeTo(cols, rows);
    }

    /** The visible rows as text, trailing blanks removed. */
    method ScreenRows(omitContinuation: bool) returns (out: seq<seq<Rune>>)
      requires Valid()
      ensures |out| == rows
      ensures forall r :: 0 <= r < rows ==> out[r] == RowText(Current(View()).cells[r], omitContinuation)
    {
      out := [];
      var s := Screen();
      for r := 0 to rows
        invariant |out| == r
        invariant forall i :: 0 <= i < r ==> out[i] == RowText(s.grid[i], omitContinuation)
      {
        var text := ReadRow(s.cells[r], omitContinuation);
        out := out + [text];
      }
    }
  }

  method ReadRow(row: array<Cell>, omitContinuation: bool) returns (text: seq<Rune>)
    ensures text == RowText(row[..], omitContinuation)
  {
    ghost var r := row[..];
    var last := row.Length;
    while last > 0 && !row[last - 1].continuation && (row[last - 1].text == [] || row[last - 1].text == [SPACE])
      invariant 0 <= last <= row.Length
      invariant InkEnd(r, last) == InkEnd(r, |r|)
    {
      last := last - 1;
    }
    text := [];
    for c := 0 to last
      invariant text == Glyphs(r[..c], omitContinuation)
    {
      var cell := row[c];
      assert r[..c + 1] == r[..c] + [cell];
      GlyphsAppend(r[..c], cell, omitContinuation);
      if cell.continuation {
        if !omitContinuation {
          text := text + [SPACE];
        }
      } else if cell.text != [] {
        text := text + cell.text;
      } else {
        text := text + [SPACE];
      }
    }
  }
}
