/** Graphics attributes, one after the other in one sequence: which of them touch brightness, and how many
    fields a colour takes with it (internal/supervisor/vterm.go, lines 396-427). */
module TermAttributes {
  import opened Utf8
  import opened CsiParams
  import opened TermModel
  import opened TermCsi
  import opened TermEffects

  // ---- fields ----

  /** Fields put together with semicolons. */
  function JoinFields(fields: seq<seq<Byte>>): seq<Byte>
    requires fields != []
  {
    if |fields| == 1 then fields[0] else fields[0] + [SEMICOLON] + JoinFields(fields[1..])
  }

  /** Digits and colons only. */
  predicate FieldOk(f: seq<Byte>) {
    forall i :: 0 <= i < |f| ==> Digit(f[i]) || f[i] == COLON
  }

  lemma {:induction false} FieldsApart(fields: seq<seq<Byte>>)
    requires fields != [] && forall i :: 0 <= i < |fields| ==> FieldOk(fields[i])
    ensures Split(JoinFields(fields), SEMICOLON) == fields && Plain(JoinFields(fields))
    decreases |fields|
  {
    assert FieldOk(fields[0]);
    assert SEMICOLON !in fields[0];
    if |fields| == 1 {
      SplitNone(fields[0], SEMICOLON);
    } else {
      FieldsApart(fields[1..]);
      SplitFirst(fields[0], SEMICOLON, JoinFields(fields[1..]));
      assert [fields[0]] + fields[1..] == fields;
    }
  }

  /** Brightness after all these fields in turn. */
  function After(fields: seq<seq<Byte>>, faint: bool): bool {
    SgrFaint(fields, SgrCodes(fields), 0, faint)
  }

  /** A sequence of fields sets brightness to what they leave it at, and nothing else. */
  lemma AttributesEffect(t: Term, fields: seq<seq<Byte>>)
    requires Ready(t) && fields != [] && forall i :: 0 <= i < |fields| ==> FieldOk(fields[i])
    requires |JoinFields(fields)| < SEQUENCE_LIMIT
    ensures var t' := Write(t, Sequence(JoinFields(fields), 'm'));
            && Ready(t') && Other(t') == Other(t)
            && Current(t') == Current(t).(joinNext := false, faint := After(fields, Current(t).faint))
  {
    FieldsApart(fields);
    PlainSequence(t, JoinFields(fields), 'm');
  }

  // ---- one field at a time ----

  lemma {:induction false} AfterFrom(fields: seq<seq<Byte>>, codes: seq<nat>, k: nat, i: nat, faint: bool)
    requires |codes| == |fields| && k <= i && k <= |fields|
    ensures SgrFaint(fields, codes, i, faint) == SgrFaint(fields[k..], codes[k..], i - k, faint)
    decreases |fields| - i
  {
    if i < |codes| {
      assert codes[k..][i - k] == codes[i] && fields[k..][i - k] == fields[i];
      assert i + 1 < |codes| ==> codes[k..][i + 1 - k] == codes[i + 1];
      var next := if codes[i] == 0 || codes[i] == 22 then false else if codes[i] == 2 then true else faint;
      AfterFrom(fields, codes, k, i + SgrSkip(fields, codes, i), next);
    }
  }

  function Code(field: seq<Byte>): nat {
    Params(Cut(field, COLON))[0]
  }

  predicate Extended(code: nat) {
    code == 38 || code == 48 || code == 58
  }

  /** The fields from k on, or none. */
  function Past(fields: seq<seq<Byte>>, k: nat): seq<seq<Byte>> {
    if k < |fields| then fields[k..] else []
  }

  lemma AfterPast(fields: seq<seq<Byte>>, k: nat, faint: bool)
    ensures SgrFaint(fields, SgrCodes(fields), k, faint) == After(Past(fields, k), faint)
  {
    if k < |fields| {
      AfterFrom(fields, SgrCodes(fields), k, k, faint);
      assert SgrCodes(fields[k..]) == SgrCodes(fields)[k..];
    }
  }

  /** Nothing left leaves brightness alone; 2 turns faint on, 0 and 22 turn it off, other attributes do nothing. A
      colour takes its arguments with it: two further fields if the first of them is 5, four if it is 2, none if it
      is anything else or the colour's own field has colons. */
  lemma AttributeByAttribute(fields: seq<seq<Byte>>, faint: bool)
    ensures fields == [] ==> After(fields, faint) == faint
    ensures fields != [] && !Extended(Code(fields[0])) ==>
              After(fields, faint) ==
              After(fields[1..], if Code(fields[0]) == 2 then true else faint && Code(fields[0]) !in {0, 22})
    ensures fields != [] && Extended(Code(fields[0])) ==>
              var taken := if COLON in fields[0] || |fields| == 1 then 1
                           else if Code(fields[1]) == 5 then 3 else if Code(fields[1]) == 2 then 5 else 1;
              After(fields, faint) == After(Past(fields, taken), faint)
  {
    if fields != [] {
      AfterPast(fields, SgrSkip(fields, SgrCodes(fields), 0), true);
      AfterPast(fields, SgrSkip(fields, SgrCodes(fields), 0), false);
      assert SgrCodes(fields)[0] == Code(fields[0]);
      assert |fields| > 1 ==> SgrCodes(fields)[1] == Code(fields[1]);
      assert Past(fields, 1) == fields[1..];
    }
  }

  // ---- numbers ----

  lemma {:induction false} CutNone(f: seq<Byte>, sep: Byte)
    requires sep !in f
    ensures Cut(f, sep) == f
    decreases |f|
  {
    if f != [] {
      CutNone(f[1..], sep);
    }
  }

  /** A number written out is one field, without colons, and its code is the number, cut off at 65535. */
  lemma CodeOfNumber(n: nat)
    ensures Code(Digits(n)) == Min(n, PARAM_MAX) && FieldOk(Digits(n)) && COLON !in Digits(n)
  {
    NumberRoundTrip(n);
    CutNone(Digits(n), COLON);
    ParamsOfNumber(n);
  }

  function Fields(ns: seq<nat>): seq<seq<Byte>> {
    seq(|ns|, i requires 0 <= i < |ns| => Digits(ns[i]))
  }

  lemma OneOff(a: nat, more: seq<nat>, faint: bool)
    requires !Extended(a)
    ensures After(Fields([a] + more), faint) ==
            After(Fields(more), if a == 2 then true else faint && a != 0 && a != 22)
  {
    CodeOfNumber(a);
    AttributeByAttribute(Fields([a] + more), faint);
    assert Fields([a] + more)[1..] == Fields(more);
  }

  /** A palette colour's number is no attribute, whatever it is. */
  lemma PaletteIgnored(kind: nat, a: nat, more: seq<nat>, faint: bool)
    requires Extended(kind)
    ensures After(Fields([kind, 5, a] + more), faint) == After(Fields(more), faint)
  {
    CodeOfNumber(kind);
    CodeOfNumber(5);
    AttributeByAttribute(Fields([kind, 5, a] + more), faint);
    assert Past(Fields([kind, 5, a] + more), 3) == Fields(more);
  }

  /** Nor are a true colour's parts. */
  lemma TrueColourIgnored(kind: nat, a: nat, b: nat, c: nat, more: seq<nat>, faint: bool)
    requires Extended(kind)
    ensures After(Fields([kind, 2, a, b, c] + more), faint) == After(Fields(more), faint)
  {
    CodeOfNumber(kind);
    CodeOfNumber(2);
    AttributeByAttribute(Fields([kind, 2, a, b, c] + more), faint);
    assert Past(Fields([kind, 2, a, b, c] + more), 5) == Fields(more);
  }

  /** One attribute by itself, from its bytes. */
  lemma AttributeEffect(t: Term, n: nat)
    requires Ready(t) && |Digits(n)| < SEQUENCE_LIMIT
    ensures Current(Numbered(t, n, 'm')) ==
            Current(t).(joinNext := false, faint := if n == 2 then true else Current(t).faint && n != 0 && n != 22)
  {
    CodeOfNumber(n);
    AttributesEffect(t, [Digits(n)]);
    AttributeByAttribute([Digits(n)], Current(t).faint);
    AttributeByAttribute([], true);
    AttributeByAttribute([], false);
    assert [Digits(n)][1..] == [] == Past([Digits(n)], 1);
  }
}
