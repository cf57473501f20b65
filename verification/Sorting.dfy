/** Sorted sequences under a total order: every multiset has exactly one. */
module Sorting {
  ghost predicate IsTotalOrder<T(!new)>(leq: (T, T) -> bool) {
    && (forall a, b :: leq(a, b) || leq(b, a))
    && (forall a, b :: leq(a, b) && leq(b, a) ==> a == b)
    && (forall a, b, c :: leq(a, b) && leq(b, c) ==> leq(a, c))
  }

  predicate IsSorted<T>(leq: (T, T) -> bool, s: seq<T>) {
    forall i, j :: 0 <= i < j < |s| ==> leq(s[i], s[j])
  }

  function Insert<T>(leq: (T, T) -> bool, x: T, s: seq<T>): seq<T> {
    if s == [] || leq(x, s[0]) then [x] + s else [s[0]] + Insert(leq, x, s[1..])
  }

  function Sort<T>(leq: (T, T) -> bool, s: seq<T>): seq<T> {
    if s == [] then [] else Insert(leq, s[0], Sort(leq, s[1..]))
  }

  lemma {:induction false} InsertAdds<T>(leq: (T, T) -> bool, x: T, s: seq<T>)
    ensures multiset(Insert(leq, x, s)) == multiset{x} + multiset(s)
  {
    if s != [] && !leq(x, s[0]) {
      InsertAdds(leq, x, s[1..]);
      assert s == [s[0]] + s[1..];
    }
  }

  lemma {:induction false} SortPermutes<T>(leq: (T, T) -> bool, s: seq<T>)
    ensures multiset(Sort(leq, s)) == multiset(s)
    ensures |Sort(leq, s)| == |s|
  {
    if s != [] {
      SortPermutes(leq, s[1..]);
      InsertAdds(leq, s[0], Sort(leq, s[1..]));
      assert s == [s[0]] + s[1..];
    }
    assert |multiset(Sort(leq, s))| == |multiset(s)|;
  }

  lemma {:induction false} InsertSorts<T(!new)>(leq: (T, T) -> bool, x: T, s: seq<T>)
    requires IsTotalOrder(leq) && IsSorted(leq, s)
    ensures IsSorted(leq, Insert(leq, x, s))
  {
    if s != [] && !leq(x, s[0]) {
      InsertSorts(leq, x, s[1..]);
      InsertAdds(leq, x, s[1..]);
      var r := Insert(leq, x, s[1..]);
      forall j | 0 <= j < |r| ensures leq(s[0], r[j]) {
        assert r[j] in multiset(r);
        assert r[j] == x || r[j] in multiset(s[1..]);
      }
    }
  }

  lemma {:induction false} SortSorts<T(!new)>(leq: (T, T) -> bool, s: seq<T>)
    requires IsTotalOrder(leq)
    ensures IsSorted(leq, Sort(leq, s))
  {
    if s != [] {
      SortSorts(leq, s[1..]);
      InsertSorts(leq, s[0], Sort(leq, s[1..]));
    }
  }

  lemma SameHead<T(!new)>(leq: (T, T) -> bool, s: seq<T>, r: seq<T>)
    requires IsTotalOrder(leq) && IsSorted(leq, s) && IsSorted(leq, r)
    requires s != [] && r != [] && multiset(s) == multiset(r)
    ensures s[0] == r[0]
  {
    assert s[0] in multiset(r) && r[0] in multiset(s);
    var i :| 0 <= i < |r| && r[i] == s[0];
    var j :| 0 <= j < |s| && s[j] == r[0];
  }

  lemma {:induction false} SortedIsUnique<T(!new)>(leq: (T, T) -> bool, s: seq<T>, r: seq<T>)
    requires IsTotalOrder(leq) && IsSorted(leq, s) && IsSorted(leq, r) && multiset(s) == multiset(r)
    ensures s == r
  {
    if s == [] {
      assert |multiset(r)| == 0;
    } else {
      assert |multiset(r)| == |s|;
      SameHead(leq, s, r);
      assert s == [s[0]] + s[1..] && r == [r[0]] + r[1..];
      assert multiset(s[1..]) == multiset(s) - multiset{s[0]};
      assert multiset(r[1..]) == multiset(r) - multiset{r[0]};
      SortedIsUnique(leq, s[1..], r[1..]);
    }
  }

  /** Two sequences sort alike exactly when they are permutations of each other. */
  lemma SortIsCanonical<T(!new)>(leq: (T, T) -> bool, s: seq<T>, r: seq<T>)
    requires IsTotalOrder(leq)
    ensures Sort(leq, s) == Sort(leq, r) <==> multiset(s) == multiset(r)
  {
    SortPermutes(leq, s);
    SortPermutes(leq, r);
    SortSorts(leq, s);
    SortSorts(leq, r);
    if multiset(s) == multiset(r) { SortedIsUnique(leq, Sort(leq, s), Sort(leq, r)); }
  }
}
