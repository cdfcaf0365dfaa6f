/** Newline-separated text. */
module TextLines {
  import opened Utf8

  const NEWLINE: Byte := 10

  predicate Unbroken(s: seq<Byte>) {
    forall i :: 0 <= i < |s| ==> s[i] != NEWLINE
  }

  /** Index of the first newline, or the length. */
  function LineEnd(s: seq<Byte>): (n: nat)
    ensures n <= |s| && (forall i :: 0 <= i < n ==> s[i] != NEWLINE) && (n < |s| ==> s[n] == NEWLINE)
  {
    Scan(s, 0)
  }

  function Scan(s: seq<Byte>, k: nat): (n: nat)
    requires k <= |s| && forall i :: 0 <= i < k ==> s[i] != NEWLINE
    ensures n <= |s| && (forall i :: 0 <= i < n ==> s[i] != NEWLINE) && (n < |s| ==> s[n] == NEWLINE)
    decreases |s| - k
  {
    if k == |s| || s[k] == NEWLINE then k else Scan(s, k + 1)
  }

  function Lines(s: seq<Byte>): seq<seq<Byte>>
    decreases |s|
  {
    var n := LineEnd(s);
    if n == |s| then [s] else [s[..n]] + Lines(s[n + 1..])
  }

  lemma LineEndUnique(s: seq<Byte>, n: nat)
    requires n <= |s| && (forall i :: 0 <= i < n ==> s[i] != NEWLINE) && (n < |s| ==> s[n] == NEWLINE)
    ensures LineEnd(s) == n
  {
  }

  /** A newline splits off everything after it as further lines. */
  lemma {:induction false} LinesSplit(s: seq<Byte>, t: seq<Byte>)
    ensures Lines(s + [NEWLINE] + t) == Lines(s) + Lines(t)
    decreases |s|
  {
    var n := LineEnd(s);
    var whole := s + [NEWLINE] + t;
    assert whole[..n] == s[..n];
    LineEndUnique(whole, n);
    if n == |s| {
      assert whole[n + 1..] == t && s[..n] == s;
    } else {
      assert whole[n + 1..] == s[n + 1..] + [NEWLINE] + t;
      LinesSplit(s[n + 1..], t);
    }
  }

  lemma LinesUnbroken(s: seq<Byte>)
    requires Unbroken(s)
    ensures Lines(s) == [s]
  {
    LineEndUnique(s, |s|);
  }
}
