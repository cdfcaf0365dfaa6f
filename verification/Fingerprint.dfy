/** The bytes a tree fingerprint hashes: a head entry, then the entries in canonical order, every field
    framed by its length (internal/supervisor/gitops/fingerprint.go, gitconfigfp.go). */
module Fingerprint {
  import opened Utf8
  import opened Sorting

  /** A Go string: its length fits in a 64-bit int. */
  type Text = s: seq<Byte> | |s| < 0x8000_0000_0000_0000

  datatype Entry = Entry(scope: Text, status: Text, path: Text, mode: Text, hash: Text)

  // ---- the order ----

  /** Byte-wise string comparison. */
  predicate Before(a: seq<Byte>, b: seq<Byte>) {
    if b == [] then false
    else if a == [] then true
    else if a[0] != b[0] then a[0] < b[0]
    else Before(a[1..], b[1..])
  }

  lemma {:induction false} BeforeTotal(a: seq<Byte>, b: seq<Byte>)
    ensures !Before(a, a)
    ensures Before(a, b) ==> !Before(b, a)
    ensures Before(a, b) || Before(b, a) || a == b
    decreases |a|
  {
    if a != [] && b != [] {
      BeforeTotal(a[1..], b[1..]);
      assert a == [a[0]] + a[1..] && b == [b[0]] + b[1..];
    } else if a != [] {
      BeforeTotal(a[1..], b);
    }
  }

  lemma {:induction false} BeforeTransitive(a: seq<Byte>, b: seq<Byte>, c: seq<Byte>)
    requires Before(a, b) && Before(b, c)
    ensures Before(a, c)
    decreases |a|
  {
    if a != [] && a[0] == b[0] == c[0] {
      BeforeTransitive(a[1..], b[1..], c[1..]);
    }
  }

  /** A string comes before another exactly if it is a proper beginning of it, or has the smaller byte where they
      first differ. */
  lemma {:induction false} BeforeMeans(a: seq<Byte>, b: seq<Byte>, k: nat)
    requires k <= |a| && k <= |b| && a[..k] == b[..k]
    ensures k == |a| < |b| ==> Before(a, b)
    ensures k == |b| ==> !Before(a, b)
    ensures k < |a| && k < |b| && a[k] != b[k] ==> (Before(a, b) <==> a[k] < b[k])
    decreases k
  {
    if k > 0 {
      assert a[0] == a[..k][0] && b[0] == b[..k][0];
      assert a[1..][..k - 1] == a[..k][1..] && b[1..][..k - 1] == b[..k][1..];
      BeforeMeans(a[1..], b[1..], k - 1);
    }
  }

  predicate Less(a: Entry, b: Entry) {
    if a.scope != b.scope then Before(a.scope, b.scope)
    else if a.status != b.status then Before(a.status, b.status)
    else if a.path != b.path then Before(a.path, b.path)
    else if a.mode != b.mode then Before(a.mode, b.mode)
    else Before(a.hash, b.hash)
  }

  function Fields(e: Entry): seq<Text> {
    [e.scope, e.status, e.path, e.mode, e.hash]
  }

  /** Entries are ordered by the first field in which they differ: scope, status, path, mode, hash. */
  lemma LessByField(a: Entry, b: Entry, k: nat)
    requires k < 5 && Fields(a)[k] != Fields(b)[k] && forall j :: 0 <= j < k ==> Fields(a)[j] == Fields(b)[j]
    ensures Less(a, b) <==> Before(Fields(a)[k], Fields(b)[k])
  {
    assert k >= 1 ==> Fields(a)[0] == Fields(b)[0];
    assert k >= 2 ==> Fields(a)[1] == Fields(b)[1];
    assert k >= 3 ==> Fields(a)[2] == Fields(b)[2];
    assert k >= 4 ==> Fields(a)[3] == Fields(b)[3];
  }

  lemma LessTrichotomy(a: Entry, b: Entry)
    ensures !Less(a, a) && (Less(a, b) ==> !Less(b, a)) && (Less(a, b) || Less(b, a) || a == b)
  {
    BeforeTotal(a.scope, b.scope);
    BeforeTotal(a.status, b.status);
    BeforeTotal(a.path, b.path);
    BeforeTotal(a.mode, b.mode);
    BeforeTotal(a.hash, b.hash);
  }

  lemma BeforeChain(a: Text, b: Text, c: Text)
    ensures Before(a, b) && Before(b, c) ==> Before(a, c)
    ensures !Before(a, a) && (Before(a, b) ==> !Before(b, a))
  {
    BeforeTotal(a, b);
    if Before(a, b) && Before(b, c) {
      BeforeTransitive(a, b, c);
    }
  }

  lemma LessTransitive(a: Entry, b: Entry, c: Entry)
    requires Less(a, b) && Less(b, c)
    ensures Less(a, c)
  {
    BeforeChain(a.scope, b.scope, c.scope);
    BeforeChain(a.status, b.status, c.status);
    BeforeChain(a.path, b.path, c.path);
    BeforeChain(a.mode, b.mode, c.mode);
    BeforeChain(a.hash, b.hash, c.hash);
  }

  lemma LessTotal()
    ensures Total(Less)
  {
    forall a, b ensures !Less(a, a) && (Less(a, b) ==> !Less(b, a)) && (Less(a, b) || Less(b, a) || a == b) {
      LessTrichotomy(a, b);
    }
    forall a, b, c | !Less(b, a) && !Less(c, b) ensures !Less(c, a) {
      LessTrichotomy(a, b);
      LessTrichotomy(b, c);
      LessTrichotomy(a, c);
      if a != b && b != c {
        LessTransitive(a, b, c);
      }
    }
  }

  // ---- the framing ----

  /** n as count bytes, most significant first, dropping what does not fit. */
  function BigEndian(n: nat, count: nat): (r: seq<Byte>)
    ensures |r| == count
  {
    if count == 0 then [] else BigEndian(n / 256, count - 1) + [n % 256]
  }

  function Value(s: seq<Byte>): nat {
    if s == [] then 0 else Value(s[..|s| - 1]) * 256 + s[|s| - 1]
  }

  function Power(count: nat): (p: nat)
    ensures p > 0
  {
    if count == 0 then 1 else 256 * Power(count - 1)
  }

  lemma {:induction false} BigEndianValue(n: nat, count: nat)
    requires n < Power(count)
    ensures Value(BigEndian(n, count)) == n
  {
    if count > 0 {
      BigEndianValue(n / 256, count - 1);
      var r := BigEndian(n, count);
      assert r[..|r| - 1] == BigEndian(n / 256, count - 1);
    }
  }

  /** Each byte is the digit of its place. */
  lemma {:induction false} BigEndianDigit(n: nat, count: nat, i: nat)
    requires i < count
    ensures BigEndian(n, count)[i] == n / Power(count - 1 - i) % 256
  {
    if i < count - 1 {
      BigEndianDigit(n / 256, count - 1, i);
      QuotientOfQuotient(n, Power(count - 2 - i));
    } else {
      assert Power(0) == 1;
    }
  }

  lemma QuotientOfQuotient(n: nat, p: nat)
    requires p > 0
    ensures n / 256 / p == n / (256 * p)
  {
    var q := n / 256 / p;
    var r := n / 256 - q * p;
    assert n == 256 * (q * p + r) + n % 256;
    assert 0 <= 256 * r + n % 256 < 256 * p;
    assert n == q * (256 * p) + (256 * r + n % 256);
    QuotientUnique(n, 256 * p, q, 256 * r + n % 256);
  }

  lemma QuotientUnique(n: nat, d: nat, q: nat, r: nat)
    requires n == q * d + r && r < d
    ensures n / d == q
  {
    var x := n / d - q;
    assert x * d == n / d * d - q * d == r - n % d;
    assert (x + 1) * d == x * d + d > 0;
    assert (x - 1) * d == x * d - d < 0;
  }

  function Sized(value: Text): seq<Byte> {
    BigEndian(|value|, 8) + value
  }

  lemma SizeFits(value: Text)
    ensures |value| < Power(8)
  {
    assert Power(8) == 256 * Power(7);
    assert Power(6) == 256 * Power(5);
    assert Power(4) == 256 * Power(3);
    assert Power(2) == 256 * Power(1);
  }

  /** A framed string can be told from whatever follows it. */
  lemma SizedDecodes(a: Text, x: seq<Byte>, b: Text, y: seq<Byte>)
    requires Sized(a) + x == Sized(b) + y
    ensures a == b && x == y
  {
    SizeFits(a);
    SizeFits(b);
    BigEndianValue(|a|, 8);
    BigEndianValue(|b|, 8);
    assert (Sized(a) + x)[..8] == BigEndian(|a|, 8);
    assert (Sized(b) + y)[..8] == BigEndian(|b|, 8);
    assert |a| == |b|;
    assert (Sized(a) + x)[8..8 + |a|] == a;
    assert (Sized(b) + y)[8..8 + |b|] == b;
    assert (Sized(a) + x)[8 + |a|..] == x;
    assert (Sized(b) + y)[8 + |b|..] == y;
  }

  function FrameOne(e: Entry): seq<Byte> {
    Sized(e.scope) + (Sized(e.status) + (Sized(e.path) + (Sized(e.mode) + Sized(e.hash))))
  }

  function Frame(entries: seq<Entry>): seq<Byte> {
    if entries == [] then [] else FrameOne(entries[0]) + Frame(entries[1..])
  }

  lemma FrameOneDecodes(e: Entry, x: seq<Byte>, f: Entry, y: seq<Byte>)
    requires FrameOne(e) + x == FrameOne(f) + y
    ensures e == f && x == y
  {
    var e4, f4 := Sized(e.hash) + x, Sized(f.hash) + y;
    var e3, f3 := Sized(e.mode) + e4, Sized(f.mode) + f4;
    var e2, f2 := Sized(e.path) + e3, Sized(f.path) + f3;
    var e1, f1 := Sized(e.status) + e2, Sized(f.status) + f2;
    assert FrameOne(e) + x == Sized(e.scope) + e1;
    assert FrameOne(f) + y == Sized(f.scope) + f1;
    SizedDecodes(e.scope, e1, f.scope, f1);
    SizedDecodes(e.status, e2, f.status, f2);
    SizedDecodes(e.path, e3, f.path, f3);
    SizedDecodes(e.mode, e4, f.mode, f4);
    SizedDecodes(e.hash, x, f.hash, y);
  }

  lemma FrameEmpty(es: seq<Entry>)
    ensures Frame(es) == [] <==> es == []
  {
    if es != [] {
      assert |FrameOne(es[0])| >= 40;
    }
  }

  lemma {:induction false} FrameDecodes(es: seq<Entry>, fs: seq<Entry>)
    requires Frame(es) == Frame(fs)
    ensures es == fs
    decreases |es|
  {
    FrameEmpty(es);
    FrameEmpty(fs);
    if es != [] && fs != [] {
      FrameOneDecodes(es[0], Frame(es[1..]), fs[0], Frame(fs[1..]));
      FrameDecodes(es[1..], fs[1..]);
      assert es == [es[0]] + es[1..] && fs == [fs[0]] + fs[1..];
    }
  }

  lemma {:induction false} FrameAppend(es: seq<Entry>, e: Entry)
    ensures Frame(es + [e]) == Frame(es) + FrameOne(e)
    decreases |es|
  {
    if es == [] {
      assert [e][1..] == [] && [] + [e] == [e];
    } else {
      assert (es + [e])[1..] == es[1..] + [e] && (es + [e])[0] == es[0];
      FrameAppend(es[1..], e);
      Reassociate(FrameOne(es[0]), Frame(es[1..]), FrameOne(e));
    }
  }

  lemma Reassociate(a: seq<Byte>, b: seq<Byte>, c: seq<Byte>)
    ensures a + (b + c) == a + b + c
  {
  }

  // ---- the fingerprint's preimage ----

  /** The four letters of the head entry's scope. */
  const HEAD: Text := [104, 101, 97, 100]

  function HeadEntry(head: Text): Entry {
    Entry(HEAD, [], [], [], head)
  }

  /** The bytes every preimage starts with: the framed word "head", three empty fields and the framed head. */
  lemma HeadBytes(head: Text)
    ensures FrameOne(HeadEntry(head)) ==
            var zeros := [0, 0, 0, 0, 0, 0, 0, 0];
            [0, 0, 0, 0, 0, 0, 0, 4] + ['h' as Byte, 'e' as Byte, 'a' as Byte, 'd' as Byte]
            + (zeros + zeros + zeros) + BigEndian(|head|, 8) + head
  {
    SmallNumber(4);
    SmallNumber(0);
    var zeros: seq<Byte> := [0, 0, 0, 0, 0, 0, 0, 0];
    var word: seq<Byte> := ['h' as Byte, 'e' as Byte, 'a' as Byte, 'd' as Byte];
    assert HEAD == word;
    HeadGlue([0, 0, 0, 0, 0, 0, 0, 4], word, zeros, BigEndian(|head|, 8), head);
  }

  lemma HeadGlue(four: seq<Byte>, word: seq<Byte>, z: seq<Byte>, n: seq<Byte>, x: seq<Byte>)
    ensures four + word + ((z + []) + ((z + []) + ((z + []) + (n + x)))) == four + word + (z + z + z) + n + x
  {
    assert z + [] == z;
  }

  lemma SmallNumber(n: Byte)
    ensures BigEndian(n, 8) == [0, 0, 0, 0, 0, 0, 0, n]
  {
    forall i | 0 <= i < 8
      ensures BigEndian(n, 8)[i] == if i == 7 then n else 0
    {
      BigEndianDigit(n, 8, i);
      assert Power(7 - i) >= if i == 7 then 1 else 256;
    }
  }

  /** Two inputs hash the same bytes exactly when the heads are equal and the entries are the same up to
      order, whatever sort is used. */
  lemma Canonical(head: Text, es: seq<Entry>, ordered: seq<Entry>, head': Text, es': seq<Entry>, ordered': seq<Entry>)
    requires SortOf(ordered, es, Less) && SortOf(ordered', es', Less)
    ensures Frame([HeadEntry(head)] + ordered) == Frame([HeadEntry(head')] + ordered') <==>
              head == head' && multiset(es) == multiset(es')
  {
    LessTotal();
    var a, b := [HeadEntry(head)] + ordered, [HeadEntry(head')] + ordered';
    if Frame(a) == Frame(b) {
      FrameDecodes(a, b);
      assert a[0] == b[0] && a[1..] == ordered && b[1..] == ordered';
    }
    if head == head' && multiset(es) == multiset(es') {
      SortUnique(ordered, ordered', Less);
    }
  }

  function AppendSized(dst: seq<Byte>, value: Text): (r: seq<Byte>)
    ensures r == dst + Sized(value)
  {
    dst + BigEndian(|value|, 8) + value
  }

  lemma Regroup(a: seq<Byte>, s1: seq<Byte>, s2: seq<Byte>, s3: seq<Byte>, s4: seq<Byte>, s5: seq<Byte>)
    ensures a + s1 + s2 + s3 + s4 + s5 == a + (s1 + (s2 + (s3 + (s4 + s5))))
  {
  }

  function AppendEntry(dst: seq<Byte>, e: Entry): (r: seq<Byte>)
    ensures r == dst + FrameOne(e)
  {
    Regroup(dst, Sized(e.scope), Sized(e.status), Sized(e.path), Sized(e.mode), Sized(e.hash));
    AppendSized(AppendSized(AppendSized(AppendSized(AppendSized(dst, e.scope), e.status), e.path), e.mode), e.hash)
  }

  method EntriesBytes(entries: seq<Entry>) returns (b: seq<Byte>)
    ensures b == Frame(entries)
  {
    b := [];
    for i := 0 to |entries|
      invariant b == Frame(entries[..i])
    {
      var e := entries[i];
      b := AppendEntry(b, e);
      FrameAppend(entries[..i], e);
      assert entries[..i + 1] == entries[..i] + [e];
    }
    assert entries[..|entries|] == entries;
  }

  /** The bytes to hash: of another input, the same bytes exactly when the other input is the same head
      and a permutation of the same entries. */
  method TreePreimage(head: Text, entries: seq<Entry>) returns (b: seq<Byte>)
    ensures forall head', entries', ordered' :: SortOf(ordered', entries', Less) ==>
              (b == Frame([HeadEntry(head')] + ordered') <==> head == head' && multiset(entries) == multiset(entries'))
  {
    LessTotal();
    var ordered := Sort(entries, Less);
    b := EntriesBytes([HeadEntry(head)] + ordered);
    forall head', entries', ordered' | SortOf(ordered', entries', Less)
      ensures b == Frame([HeadEntry(head')] + ordered') <==> head == head' && multiset(entries) == multiset(entries')
    {
      Canonical(head, entries, ordered, head', entries', ordered');
    }
  }
}
