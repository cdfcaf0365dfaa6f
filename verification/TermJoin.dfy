/** The input on which resizing breaks a wide character, as a byte stream
    (internal/supervisor/vterm.go, lines 302-336 and 707-738). */
module TermJoin {
  import opened Utf8
  import opened CsiParams
  import opened TermModel
  import opened TermChunks
  import opened TermInvariant
  import opened TermText
  import opened TermCsi

  /** A rune above the control characters is put on the screen, whatever its width. */
  lemma WriteRune(t: Term, ch: Rune)
    requires TermShape(t) && t.state == Ground && t.utf8Pending == [] && Scalar(ch) && ch >= 0xa0
    ensures Write(t, Encode(ch)) == PutRune(t, ch)
  {
    var data := Encode(ch);
    DecodeEncode(ch, []);
    assert data + [] == data;
    EncodedLead(ch);
    assert t.utf8Pending + data == data && t.(utf8Pending := []) == t;
    RunOneUnit(t, data);
  }

  /** Move to the third of four columns, print a narrow rune, then a joiner. */
  function JoiningBytes(a: Rune): seq<Byte>
    requires Scalar(a)
  {
    Sequence(Digits(3), 'G') + Encode(a) + Encode(JOINER)
  }

  lemma AtThirdColumn()
    ensures var t := Write(NewTerm(4, 1), Sequence(Digits(3), 'G'));
            t.state == Ground && t.utf8Pending == [] && !t.useAlternate && Current(t) == NewScreen(4, 1).(col := 2)
  {
    ParamsOfNumber(3);
    PlainSequence(NewTerm(4, 1), Digits(3), 'G');
  }

  lemma JoiningScreen(a: Rune)
    requires RuneWidth(a) == 1 && RuneWidth(JOINER) == 0
    ensures var s := Put(Put(NewScreen(4, 1).(col := 2), 4, 1, a), 4, 1, JOINER);
            s.joinNext && s.row == 0 && s.col == 3 && s.cells[0][0] == BLANK
  {
    var s0 := NewScreen(4, 1).(col := 2);
    var s1 := Put(s0, 4, 1, a);
    assert Settle(s0, 4, 1, 1) == s0;
    assert s1.col == 3 && !s1.joinNext && !s1.pendingWrap;
    assert s1.cells[0] == [BLANK, BLANK, Cell([a], false, false), BLANK];
    assert PreviousCell(s1) == 2;
  }

  lemma JoiningWritten(a: Rune)
    requires Scalar(a) && a >= 0xa0 && RuneWidth(a) == 1 && RuneWidth(JOINER) == 0
    ensures var t := Write(NewTerm(4, 1), JoiningBytes(a));
            && t.state == Ground && t.utf8Pending == [] && t.cols == 4 && t.rows == 1 && Inv(t)
            && Current(t).joinNext && Current(t).row == 0 && Current(t).col == 3 && Current(t).cells[0][0] == BLANK
  {
    var t0 := NewTerm(4, 1);
    NewTermInv(4, 1);
    WriteInv(t0, JoiningBytes(a));
    AtThirdColumn();
    var t1 := Write(t0, Sequence(Digits(3), 'G'));
    WriteRune(t1, a);
    var t2 := PutRune(t1, a);
    WriteRune(t2, JOINER);
    ChunkInvariance(t0, Sequence(Digits(3), 'G'), Encode(a));
    ChunkInvariance(t0, Sequence(Digits(3), 'G') + Encode(a), Encode(JOINER));
    JoiningScreen(a);
  }

  /** From a new terminal: these bytes, a resize to two columns and one wide rune tear that rune. */
  lemma JoinLossReachable(a: Rune, wide: Rune)
    requires Scalar(a) && a >= 0xa0 && RuneWidth(a) == 1 && RuneWidth(JOINER) == 0
    requires Scalar(wide) && wide >= 0xa0 && RuneWidth(wide) == 2
    ensures var t := Resize(Write(NewTerm(4, 1), JoiningBytes(a)), 2, 1);
            !GridOk(Current(Write(t, Encode(wide))).cells)
  {
    JoiningWritten(a);
    var t := Write(NewTerm(4, 1), JoiningBytes(a));
    assert !JoinSurvives(Current(t), 2, 1);
    ResizeLosesPairing(t, 2, 1, wide);
    WriteRune(Resize(t, 2, 1), wide);
  }
}
