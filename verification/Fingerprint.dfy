/** The fingerprint of a bank export (`apply-rules.ts`), up to the text that is hashed: when two
    parsed exports are taken for the same source. */
module Fingerprint {
  import Json
  import opened Seqs
  import opened Sorting

  /** A parsed export. The parser refuses rows of another width than the header. */
  datatype Csv = Csv(headers: seq<string>, rows: seq<seq<string>>)

  predicate IsRectangular(t: Csv) {
    forall r :: r in t.rows ==> |r| == |t.headers|
  }

  datatype Column = Column(name: string, index: nat)

  datatype Form = Form(headers: seq<string>, rows: seq<string>)

  predicate TextLeq(a: string, b: string) {
    a == "" || (b != "" && (a[0] < b[0] || (a[0] == b[0] && TextLeq(a[1..], b[1..]))))
  }

  predicate ColumnLeq(a: Column, b: Column) {
    if a.name != b.name then TextLeq(a.name, b.name) else a.index <= b.index
  }

  function Unsorted(headers: seq<string>): seq<Column> {
    seq(|headers|, i requires 0 <= i < |headers| => Column(headers[i], i))
  }

  function Columns(headers: seq<string>): seq<Column> {
    Sort(ColumnLeq, Unsorted(headers))
  }

  function Map<A, B>(f: A -> B, s: seq<A>): (r: seq<B>)
    ensures |r| == |s|
    ensures forall i :: 0 <= i < |s| ==> r[i] == f(s[i])
  {
    seq(|s|, i requires 0 <= i < |s| => f(s[i]))
  }

  function Name(c: Column): string { c.name }

  /** Rows are as wide as the header, so the default is never taken. */
  function Cell(row: seq<string>, i: nat): string {
    if i < |row| then row[i] else ""
  }

  /** A row in the order of the sorted columns. */
  function Normalised(columns: seq<Column>, row: seq<string>): (r: seq<string>)
    ensures |r| == |columns|
    ensures forall k :: 0 <= k < |columns| ==> r[k] == Cell(row, columns[k].index)
  {
    seq(|columns|, k requires 0 <= k < |columns| => Cell(row, columns[k].index))
  }

  function NormalRows(t: Csv): seq<seq<string>> {
    Map(row => Normalised(Columns(t.headers), row), t.rows)
  }

  function SourceForm(t: Csv): Form {
    Form(Map(Name, Columns(t.headers)), Sort(TextLeq, Map(Json.Stringify, NormalRows(t))))
  }

  // ---------- the orders ----------

  lemma {:induction false} TextIsTotal(a: string, b: string)
    ensures TextLeq(a, b) || TextLeq(b, a)
    ensures TextLeq(a, b) && TextLeq(b, a) ==> a == b
  {
    if a != "" && b != "" {
      TextIsTotal(a[1..], b[1..]);
      assert a == [a[0]] + a[1..] && b == [b[0]] + b[1..];
    }
  }

  lemma {:induction false} TextIsTransitive(a: string, b: string, c: string)
    requires TextLeq(a, b) && TextLeq(b, c)
    ensures TextLeq(a, c)
  {
    if a != "" && a[0] == b[0] == c[0] { TextIsTransitive(a[1..], b[1..], c[1..]); }
  }

  lemma TextOrder()
    ensures IsTotalOrder(TextLeq)
  {
    forall a: string, b: string ensures TextLeq(a, b) || TextLeq(b, a) { TextIsTotal(a, b); }
    forall a, b | TextLeq(a, b) && TextLeq(b, a) ensures a == b { TextIsTotal(a, b); }
    forall a, b, c | TextLeq(a, b) && TextLeq(b, c) ensures TextLeq(a, c) { TextIsTransitive(a, b, c); }
  }

  lemma ColumnIsTransitive(a: Column, b: Column, c: Column)
    requires ColumnLeq(a, b) && ColumnLeq(b, c)
    ensures ColumnLeq(a, c)
  {
    if a.name != b.name && b.name != c.name {
      TextIsTransitive(a.name, b.name, c.name);
      if a.name == c.name { TextIsTotal(a.name, b.name); }
    }
  }

  lemma ColumnOrder()
    ensures IsTotalOrder(ColumnLeq)
  {
    forall a: Column, b: Column ensures ColumnLeq(a, b) || ColumnLeq(b, a) { TextIsTotal(a.name, b.name); }
    forall a, b | ColumnLeq(a, b) && ColumnLeq(b, a) ensures a == b { TextIsTotal(a.name, b.name); }
    forall a, b, c | ColumnLeq(a, b) && ColumnLeq(b, c) ensures ColumnLeq(a, c) { ColumnIsTransitive(a, b, c); }
  }

  // ---------- multisets of images ----------

  lemma ImageOneLess<A, B>(f: A -> B, s: seq<A>, k: nat)
    requires k < |s|
    ensures Map(f, Without(s, k)) == Without(Map(f, s), k)
  {}

  ghost predicate Separates<A(!new), B>(f: A -> B, s: seq<A>, r: seq<A>) {
    forall a, b :: a in s && b in r && f(a) == f(b) ==> a == b
  }

  lemma {:induction false} ImagesOfPermutations<A, B>(f: A -> B, s: seq<A>, r: seq<A>)
    requires multiset(s) == multiset(r)
    ensures multiset(Map(f, s)) == multiset(Map(f, r))
    decreases |s|
  {
    if s == [] {
      assert |multiset(r)| == 0;
    } else {
      assert s[0] in multiset(r);
      var k :| 0 <= k < |r| && r[k] == s[0];
      OneLess(s, 0);
      OneLess(r, k);
      ImagesOfPermutations(f, Without(s, 0), Without(r, k));
      ImageOneLess(f, s, 0);
      ImageOneLess(f, r, k);
      OneLess(Map(f, s), 0);
      OneLess(Map(f, r), k);
    }
  }

  lemma {:induction false} PermutationsOfImages<A(!new), B>(f: A -> B, s: seq<A>, r: seq<A>)
    requires Separates(f, s, r) && multiset(Map(f, s)) == multiset(Map(f, r))
    ensures multiset(s) == multiset(r)
    decreases |s|
  {
    assert |multiset(Map(f, s))| == |s| && |multiset(Map(f, r))| == |r|;
    if s != [] {
      assert Map(f, s)[0] in multiset(Map(f, r));
      var k :| 0 <= k < |r| && Map(f, r)[k] == Map(f, s)[0];
      assert r[k] == s[0];
      ImageOneLess(f, s, 0);
      ImageOneLess(f, r, k);
      OneLess(Map(f, s), 0);
      OneLess(Map(f, r), k);
      PermutationsOfImages(f, Without(s, 0), Without(r, k));
      OneLess(s, 0);
      OneLess(r, k);
    }
  }

  lemma SameImages<A(!new), B>(f: A -> B, s: seq<A>, r: seq<A>)
    requires Separates(f, s, r)
    ensures multiset(Map(f, s)) == multiset(Map(f, r)) <==> multiset(s) == multiset(r)
  {
    if multiset(s) == multiset(r) { ImagesOfPermutations(f, s, r); }
    if multiset(Map(f, s)) == multiset(Map(f, r)) { PermutationsOfImages(f, s, r); }
  }

  // ---------- when two exports have one form ----------

  /** The rows of two exports agree, whatever their order, exactly when their sorted texts do. */
  lemma SameRowTexts(s: seq<seq<string>>, r: seq<seq<string>>)
    ensures Sort(TextLeq, Map(Json.Stringify, s)) == Sort(TextLeq, Map(Json.Stringify, r)) <==> multiset(s) == multiset(r)
  {
    TextOrder();
    SortIsCanonical(TextLeq, Map(Json.Stringify, s), Map(Json.Stringify, r));
    forall a, b | a in s && b in r && Json.Stringify(a) == Json.Stringify(b) ensures a == b { Json.StringifyIsInjective(a, b); }
    SameImages(Json.Stringify, s, r);
  }

  lemma UnsortedNames(h: seq<string>)
    ensures Map(Name, Unsorted(h)) == h
  {}

  /** The names in column order are the header, sorted. */
  lemma NamesAreSorted(h: seq<string>)
    ensures Map(Name, Columns(h)) == Sort(TextLeq, h)
  {
    TextOrder();
    ColumnOrder();
    SortPermutes(ColumnLeq, Unsorted(h));
    SortSorts(ColumnLeq, Unsorted(h));
    ImagesOfPermutations(Name, Columns(h), Unsorted(h));
    UnsortedNames(h);
    SortPermutes(TextLeq, h);
    SortSorts(TextLeq, h);
    forall i, j | 0 <= i < j < |Columns(h)| ensures TextLeq(Columns(h)[i].name, Columns(h)[j].name) {
      assert ColumnLeq(Columns(h)[i], Columns(h)[j]);
      TextIsTotal(Columns(h)[i].name, Columns(h)[j].name);
    }
    SortedIsUnique(TextLeq, Map(Name, Columns(h)), Sort(TextLeq, h));
  }

  /** Two exports have one form exactly when they have the same header names, as often each, and
      the same rows, as often each, once the columns are put in name order. */
  lemma SameForm(t: Csv, u: Csv)
    ensures SourceForm(t) == SourceForm(u)
       <==> multiset(t.headers) == multiset(u.headers) && multiset(NormalRows(t)) == multiset(NormalRows(u))
  {
    TextOrder();
    NamesAreSorted(t.headers);
    NamesAreSorted(u.headers);
    SortIsCanonical(TextLeq, t.headers, u.headers);
    SameRowTexts(NormalRows(t), NormalRows(u));
  }

  // ---------- with distinct names, the order of the columns does not take part ----------

  predicate IsDistinct<T(==)>(s: seq<T>) {
    forall i, j :: 0 <= i < j < |s| ==> s[i] != s[j]
  }

  lemma {:induction false} DistinctOccursOnce<T>(s: seq<T>, x: T)
    requires IsDistinct(s)
    ensures multiset(s)[x] <= 1
  {
    if s != [] {
      DistinctOccursOnce(s[1..], x);
      assert s == [s[0]] + s[1..];
      if x == s[0] { assert x !in s[1..]; }
    }
  }

  lemma OccursOnceIsDistinct<T>(s: seq<T>)
    requires forall x :: x in s ==> multiset(s)[x] <= 1
    ensures IsDistinct(s)
  {
    forall i, j | 0 <= i < j < |s| ensures s[i] != s[j] {
      assert s == s[..j] + s[j..];
      assert s[i] in s[..j] && s[j] in s[j..];
      assert multiset(s)[s[j]] == multiset(s[..j])[s[j]] + multiset(s[j..])[s[j]];
    }
  }

  lemma SortedNamesAreDistinct(h: seq<string>)
    requires IsDistinct(h)
    ensures IsDistinct(Sort(TextLeq, h))
  {
    SortPermutes(TextLeq, h);
    forall x | x in Sort(TextLeq, h) ensures multiset(Sort(TextLeq, h))[x] <= 1 { DistinctOccursOnce(h, x); }
    OccursOnceIsDistinct(Sort(TextLeq, h));
  }

  function IndexOf(h: seq<string>, name: string): (i: nat)
    requires name in h
    ensures i < |h| && h[i] == name
  {
    if h[0] == name then 0 else 1 + IndexOf(h[1..], name)
  }

  /** A row as what it says under each name. */
  function CellsByName(h: seq<string>, row: seq<string>): map<string, string> {
    map name | name in h :: Cell(row, IndexOf(h, name))
  }

  function NamedRows(t: Csv): seq<map<string, string>> {
    Map(row => CellsByName(t.headers, row), t.rows)
  }

  lemma ColumnsAreTheHeader(h: seq<string>, k: nat)
    requires k < |Columns(h)|
    ensures Columns(h)[k].index < |h| && h[Columns(h)[k].index] == Columns(h)[k].name
  {
    SortPermutes(ColumnLeq, Unsorted(h));
    assert Columns(h)[k] in multiset(Unsorted(h));
  }

  lemma IndexIsUnique(h: seq<string>, i: nat)
    requires IsDistinct(h) && i < |h|
    ensures IndexOf(h, h[i]) == i
  {}

  lemma NormalisedCell(h: seq<string>, row: seq<string>, name: string)
    requires IsDistinct(h) && name in h && name in Sort(TextLeq, h)
    ensures Cell(Normalised(Columns(h), row), IndexOf(Sort(TextLeq, h), name)) == Cell(row, IndexOf(h, name))
  {
    NamesAreSorted(h);
    var k := IndexOf(Sort(TextLeq, h), name);
    ColumnsAreTheHeader(h, k);
    IndexIsUnique(h, Columns(h)[k].index);
  }

  /** Sorting the columns of a row does not change what it says under each name. */
  lemma NormalisedSaysTheSame(h: seq<string>, row: seq<string>)
    requires IsDistinct(h)
    ensures CellsByName(Sort(TextLeq, h), Normalised(Columns(h), row)) == CellsByName(h, row)
  {
    var n := Sort(TextLeq, h);
    SortPermutes(TextLeq, h);
    forall name: string ensures name in n <==> name in h { assert name in multiset(n) <==> name in multiset(h); }
    forall name | name in h
      ensures Cell(Normalised(Columns(h), row), IndexOf(n, name)) == Cell(row, IndexOf(h, name))
    {
      NormalisedCell(h, row, name);
    }
  }

  lemma NamesSeparateRows(n: seq<string>, a: seq<string>, b: seq<string>)
    requires IsDistinct(n) && |a| == |n| && |b| == |n| && CellsByName(n, a) == CellsByName(n, b)
    ensures a == b
  {
    forall k | 0 <= k < |n| ensures a[k] == b[k] {
      assert IndexOf(n, n[k]) == k;
      assert CellsByName(n, a)[n[k]] == CellsByName(n, b)[n[k]];
    }
  }

  lemma NamedIsNormalised(t: Csv)
    requires IsDistinct(t.headers)
    ensures NamedRows(t) == Map(r => CellsByName(Sort(TextLeq, t.headers), r), NormalRows(t))
  {
    forall i | 0 <= i < |t.rows| ensures NamedRows(t)[i] == CellsByName(Sort(TextLeq, t.headers), NormalRows(t)[i]) {
      NormalisedSaysTheSame(t.headers, t.rows[i]);
    }
  }

  lemma SameNamedRows(t: Csv, u: Csv)
    requires IsDistinct(t.headers) && IsDistinct(u.headers) && multiset(t.headers) == multiset(u.headers)
    ensures multiset(NamedRows(t)) == multiset(NamedRows(u)) <==> multiset(NormalRows(t)) == multiset(NormalRows(u))
  {
    TextOrder();
    SortIsCanonical(TextLeq, t.headers, u.headers);
    var n := Sort(TextLeq, t.headers);
    SortedNamesAreDistinct(t.headers);
    NamedIsNormalised(t);
    NamedIsNormalised(u);
    NamesAreSorted(t.headers);
    NamesAreSorted(u.headers);
    var f := r => CellsByName(n, r);
    forall a, b | a in NormalRows(t) && b in NormalRows(u) && f(a) == f(b) ensures a == b { NamesSeparateRows(n, a, b); }
    SameImages(f, NormalRows(t), NormalRows(u));
  }

  lemma DistinctElements(s: seq<string>, r: seq<string>)
    requires IsDistinct(s) && IsDistinct(r) && (forall x :: x in s <==> x in r)
    ensures multiset(s) == multiset(r)
  {
    forall x: string ensures multiset(s)[x] == multiset(r)[x] {
      DistinctOccursOnce(s, x);
      DistinctOccursOnce(r, x);
      assert x in s <==> x in multiset(s);
      assert x in r <==> x in multiset(r);
    }
  }

  lemma SameDistinctNames(s: seq<string>, r: seq<string>)
    requires IsDistinct(s) && IsDistinct(r)
    ensures multiset(s) == multiset(r) <==> (forall x :: x in s <==> x in r)
  {
    if forall x :: x in s <==> x in r { DistinctElements(s, r); }
    forall x: string ensures multiset(s) == multiset(r) ==> (x in s <==> x in r) {
      assert (x in s <==> x in multiset(s)) && (x in r <==> x in multiset(r));
    }
  }

  /** Two exports whose column names are distinct are taken for one source exactly when they have
      the same names and, as often each, the same rows, read by name. */
  lemma SameSource(t: Csv, u: Csv)
    requires IsRectangular(t) && IsRectangular(u) && IsDistinct(t.headers) && IsDistinct(u.headers)
    ensures SourceForm(t) == SourceForm(u)
       <==> (forall x :: x in t.headers <==> x in u.headers) && multiset(NamedRows(t)) == multiset(NamedRows(u))
  {
    SameForm(t, u);
    SameDistinctNames(t.headers, u.headers);
    if multiset(t.headers) == multiset(u.headers) { SameNamedRows(t, u); }
  }
}
