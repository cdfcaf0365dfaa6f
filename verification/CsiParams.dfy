/** Parameter strings of control sequences: section 5.4 of ECMA-48 as
    internal/supervisor/vterm.go reads them (lines 380, 400-405, 504-534). */
module CsiParams {
  import opened Utf8

  const SEMICOLON: Byte := 0x3b
  const COLON: Byte := 0x3a

  /** The largest parameter value kept; longer numerals saturate here. */
  const PARAM_MAX: nat := 65535

  predicate Digit(b: Byte) {
    0x30 <= b <= 0x39
  }

  /** Pieces of s between separators; always at least one. */
  function Split(s: seq<Byte>, sep: Byte): (parts: seq<seq<Byte>>)
    ensures |parts| >= 1
  {
    if s == [] then [[]]
    else
      var rest := Split(s[1..], sep);
      if s[0] == sep then [[]] + rest else [[s[0]] + rest[0]] + rest[1..]
  }

  /** The part before the first separator. */
  function Cut(s: seq<Byte>, sep: Byte): seq<Byte> {
    if s == [] || s[0] == sep then [] else [s[0]] + Cut(s[1..], sep)
  }

  function SplitAll(fields: seq<seq<Byte>>, sep: Byte): (parts: seq<seq<Byte>>)
    ensures |parts| >= |fields|
  {
    if fields == [] then [] else Split(fields[0], sep) + SplitAll(fields[1..], sep)
  }

  /** One numeral scanned left to right from an accumulated value. */
  function ScanFrom(f: seq<Byte>, value: nat): (v: nat)
    requires value <= PARAM_MAX
    ensures v <= PARAM_MAX
    decreases |f|
  {
    if f == [] then value
    else if !Digit(f[0]) then 0
    else if value > 6553 || (value == 6553 && f[0] - 0x30 > 5) then PARAM_MAX
    else ScanFrom(f[1..], value * 10 + (f[0] - 0x30))
  }

  function Numeral(f: seq<Byte>): (v: nat)
    ensures v <= PARAM_MAX
  {
    ScanFrom(f, 0)
  }

  function Numerals(parts: seq<seq<Byte>>): (out: seq<nat>)
    ensures |out| == |parts|
    ensures forall i :: 0 <= i < |out| ==> out[i] == Numeral(parts[i])
    ensures forall i :: 0 <= i < |out| ==> out[i] <= PARAM_MAX
  {
    seq(|parts|, i requires 0 <= i < |parts| => Numeral(parts[i]))
  }

  /** The parameter list: fields separated by semicolons, sub-fields by colons. */
  function Params(raw: seq<Byte>): (out: seq<nat>)
    ensures |out| >= 1
  {
    Numerals(SplitAll(Split(raw, SEMICOLON), COLON))
  }

  /** A missing or zero parameter takes its default. */
  function Param(params: seq<nat>, i: nat, def: nat): nat {
    if i >= |params| || params[i] == 0 then def else params[i]
  }

  /** Only digits and the two separators are accepted in an ordinary control sequence. */
  predicate Plain(raw: seq<Byte>) {
    forall i :: 0 <= i < |raw| ==> Digit(raw[i]) || raw[i] == SEMICOLON || raw[i] == COLON
  }

  function PrivateEraseMode(raw: seq<Byte>): nat {
    if |raw| < 2 then 0 else Params(raw[1..])[0]
  }

  // ---- what a numeral means ----

  predicate AllDigits(f: seq<Byte>) {
    forall i :: 0 <= i < |f| ==> Digit(f[i])
  }

  /** Positional value of a digit string appended to a prefix of value hi. */
  function Decimal(f: seq<Byte>, hi: nat): nat
    requires AllDigits(f)
    decreases |f|
  {
    if f == [] then hi else Decimal(f[1..], hi * 10 + (f[0] - 0x30))
  }

  lemma {:induction false} DecimalGrows(f: seq<Byte>, hi: nat)
    requires AllDigits(f)
    ensures Decimal(f, hi) >= hi
    decreases |f|
  {
    if f != [] {
      DecimalGrows(f[1..], hi * 10 + (f[0] - 0x30));
    }
  }

  function Min(a: int, b: int): int {
    if a < b then a else b
  }

  /** A digit string is worth its decimal value, saturated at 65535, however long it is. */
  lemma {:induction false} NumeralSaturates(f: seq<Byte>, hi: nat)
    requires AllDigits(f) && hi <= PARAM_MAX
    ensures ScanFrom(f, hi) == Min(Decimal(f, hi), PARAM_MAX)
    decreases |f|
  {
    if f != [] {
      var d: nat := f[0] - 0x30;
      if hi > 6553 || (hi == 6553 && d > 5) {
        DecimalGrows(f[1..], hi * 10 + d);
      } else {
        NumeralSaturates(f[1..], hi * 10 + d);
      }
    }
  }

  /** Splitting then joining gives the string back. */
  function Join(parts: seq<seq<Byte>>, sep: Byte): seq<Byte>
    requires |parts| >= 1
    decreases |parts|
  {
    if |parts| == 1 then parts[0] else parts[0] + [sep] + Join(parts[1..], sep)
  }

  lemma JoinNewField(rest: seq<seq<Byte>>, sep: Byte)
    requires |rest| >= 1
    ensures Join([[]] + rest, sep) == [sep] + Join(rest, sep)
  {
    assert ([[]] + rest)[1..] == rest;
  }

  lemma JoinLongerField(rest: seq<seq<Byte>>, b: Byte, sep: Byte)
    requires |rest| >= 1
    ensures Join([[b] + rest[0]] + rest[1..], sep) == [b] + Join(rest, sep)
  {
    var parts := [[b] + rest[0]] + rest[1..];
    if |rest| > 1 {
      assert parts[1..] == rest[1..];
    }
  }

  lemma {:induction false} SplitClean(s: seq<Byte>, sep: Byte)
    ensures forall i :: 0 <= i < |Split(s, sep)| ==> sep !in Split(s, sep)[i]
    decreases |s|
  {
    if s != [] {
      SplitClean(s[1..], sep);
    }
  }

  lemma {:induction false} SplitJoin(s: seq<Byte>, sep: Byte)
    ensures Join(Split(s, sep), sep) == s
    ensures forall i :: 0 <= i < |Split(s, sep)| ==> sep !in Split(s, sep)[i]
    decreases |s|
  {
    SplitClean(s, sep);
    if s != [] {
      var rest := Split(s[1..], sep);
      SplitJoin(s[1..], sep);
      assert s == [s[0]] + s[1..];
      if s[0] == sep {
        JoinNewField(rest, sep);
      } else {
        JoinLongerField(rest, s[0], sep);
      }
    }
  }

  /** The scanning loop itself. */
  method ScanNumeral(f: seq<Byte>) returns (value: nat)
    ensures value == Numeral(f)
  {
    value := 0;
    var i := 0;
    while i < |f|
      invariant 0 <= i <= |f| && value <= PARAM_MAX
      invariant ScanFrom(f[i..], value) == Numeral(f)
    {
      var c := f[i];
      assert f[i..][1..] == f[i + 1..];
      if !Digit(c) {
        return 0;
      }
      if value > 6553 || (value == 6553 && c - 0x30 > 5) {
        return PARAM_MAX;
      }
      value := value * 10 + (c - 0x30);
      i := i + 1;
    }
  }

  method ParseParams(raw: seq<Byte>) returns (out: seq<nat>)
    ensures out == Params(raw)
  {
    var fields := Split(raw, SEMICOLON);
    var parts: seq<seq<Byte>> := [];
    for k := 0 to |fields|
      invariant parts + SplitAll(fields[k..], COLON) == SplitAll(fields, COLON)
    {
      assert fields[k..][1..] == fields[k + 1..];
      parts := parts + Split(fields[k], COLON);
    }
    out := [];
    for i := 0 to |parts|
      invariant |out| == i
      invariant forall j :: 0 <= j < i ==> out[j] == Numeral(parts[j])
    {
      var v := ScanNumeral(parts[i]);
      out := out + [v];
    }
  }
}
