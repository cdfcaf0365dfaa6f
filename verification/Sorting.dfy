/** Sorting by a caller's comparison: what any sort has to return, and when that is unique. */
module Sorting {

  /** less is a strict weak order. */
  ghost predicate Weak<T(!new)>(less: (T, T) -> bool) {
    && (forall a :: !less(a, a))
    && (forall a, b :: less(a, b) ==> !less(b, a))
    && (forall a, b, c :: !less(b, a) && !less(c, b) ==> !less(c, a))
  }

  ghost predicate Total<T(!new)>(less: (T, T) -> bool) {
    Weak(less) && forall a, b :: less(a, b) || less(b, a) || a == b
  }

  ghost predicate Sorted<T(!new)>(s: seq<T>, less: (T, T) -> bool) {
    forall i, j :: 0 <= i < j < |s| ==> !less(s[j], s[i])
  }

  /** What a sort promises. */
  ghost predicate SortOf<T(!new)>(r: seq<T>, s: seq<T>, less: (T, T) -> bool) {
    Sorted(r, less) && multiset(r) == multiset(s)
  }

  function Insert<T(!new)>(x: T, s: seq<T>, less: (T, T) -> bool): (r: seq<T>)
    requires Weak(less) && Sorted(s, less)
    ensures SortOf(r, [x] + s, less)
  {
    if s == [] then [x]
    else if !less(s[0], x) then InsertFirst(x, s, less); [x] + s
    else
      var rest := Insert(x, s[1..], less);
      InsertLater(x, s, rest, less);
      [s[0]] + rest
  }

  lemma InsertFirst<T(!new)>(x: T, s: seq<T>, less: (T, T) -> bool)
    requires Weak(less) && Sorted(s, less) && s != [] && !less(s[0], x)
    ensures Sorted([x] + s, less)
  {
    forall i, j | 0 <= i < j < |[x] + s| ensures !less(([x] + s)[j], ([x] + s)[i]) {
      if i == 0 && j > 1 {
        assert !less(s[j - 1], s[0]);
      }
    }
  }

  lemma InsertLater<T(!new)>(x: T, s: seq<T>, rest: seq<T>, less: (T, T) -> bool)
    requires Weak(less) && Sorted(s, less) && s != [] && less(s[0], x)
    requires SortOf(rest, [x] + s[1..], less)
    ensures SortOf([s[0]] + rest, [x] + s, less)
  {
    forall j | 0 <= j < |rest| ensures !less(rest[j], s[0]) {
      assert rest[j] in multiset(rest);
      assert rest[j] == x || rest[j] in s[1..];
    }
    assert s == [s[0]] + s[1..];
  }

  function Sort<T(!new)>(s: seq<T>, less: (T, T) -> bool): (r: seq<T>)
    requires Weak(less)
    ensures SortOf(r, s, less)
  {
    if s == [] then []
    else
      var rest := Sort(s[1..], less);
      assert s == [s[0]] + s[1..];
      Insert(s[0], rest, less)
  }

  lemma HeadLeast<T(!new)>(r: seq<T>, less: (T, T) -> bool, x: T)
    requires Weak(less) && Sorted(r, less) && x in multiset(r)
    ensures r != [] && !less(x, r[0])
  {
    var i :| 0 <= i < |r| && r[i] == x;
  }

  lemma TailElements<T>(r: seq<T>)
    requires r != []
    ensures multiset(r[1..]) == multiset(r) - multiset{r[0]}
  {
    assert r == [r[0]] + r[1..];
  }

  lemma WithoutElement<T>(s: seq<T>, i: nat)
    requires i < |s|
    ensures multiset(s[..i] + s[i + 1..]) == multiset(s) - multiset{s[i]}
  {
    assert s == s[..i] + ([s[i]] + s[i + 1..]);
  }

  /** Under a total order any two sorts of the same elements agree. */
  lemma {:induction false} SortUnique<T(!new)>(r: seq<T>, s: seq<T>, less: (T, T) -> bool)
    requires Total(less) && Sorted(r, less) && Sorted(s, less) && multiset(r) == multiset(s)
    ensures r == s
  {
    assert |r| == |multiset(r)| && |s| == |multiset(s)|;
    if r != [] {
      HeadLeast(r, less, s[0]);
      HeadLeast(s, less, r[0]);
      TailElements(r);
      TailElements(s);
      SortUnique(r[1..], s[1..], less);
      assert r == [r[0]] + r[1..] && s == [s[0]] + s[1..];
    }
  }
}
