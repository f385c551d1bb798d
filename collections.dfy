/**
 * Library behaviour the pipeline relies on: a Set's first-occurrence deduplication,
 * Array.prototype.sort (a stable sort under a comparator), the default sort order of
 * strings, and the "directories first, then by name" comparator.
 */
module Collections {

  predicate Distinct<T(==)>(s: seq<T>) {
    forall i, j :: 0 <= i < j < |s| ==> s[i] != s[j]
  }

  /** Array.from(new Set(xs)): the distinct elements, in order of first occurrence. */
  function Dedup<T(==)>(xs: seq<T>): (r: seq<T>)
    ensures forall i :: 0 <= i < |r| ==> r[i] in xs
    ensures forall i :: 0 <= i < |xs| ==> xs[i] in r
    ensures Distinct(r)
  {
    if xs == [] then []
    else
      var d := Dedup(xs[..|xs| - 1]);
      if xs[|xs| - 1] in d then d else d + [xs[|xs| - 1]]
  }

  lemma AppendAssoc<T>(a: seq<T>, b: seq<T>, c: seq<T>)
    ensures a + b + c == a + (b + c)
  {
  }

  /** A prefix one longer is the prefix and the next element. */
  lemma TakeSnoc<T>(s: seq<T>, k: nat)
    requires k < |s|
    ensures s[..k] + [s[k]] == s[..k + 1]
    ensures s[..k + 1][..k] == s[..k] && s[..k + 1][k] == s[k]
  {
  }

  /** Deduplication keeps exactly the values it is given. */
  lemma DedupMembers<T>(xs: seq<T>, x: T)
    ensures x in Dedup(xs) <==> x in xs
  {
    if x in xs {
      var i :| 0 <= i < |xs| && xs[i] == x;
    }
    if x in Dedup(xs) {
      var i :| 0 <= i < |Dedup(xs)| && Dedup(xs)[i] == x;
    }
  }

  /** A sequence without duplicates is its own deduplication. */
  lemma {:induction false} DedupDistinct<T>(xs: seq<T>)
    requires Distinct(xs)
    ensures Dedup(xs) == xs
  {
    if xs != [] {
      DedupDistinct(xs[..|xs| - 1]);
      assert xs == xs[..|xs| - 1] + [xs[|xs| - 1]];
    }
  }

  /** Deduplicating a concatenation keeps the deduplicated first part, in order, at its
   *  front. */
  lemma {:induction false} DedupPrefix<T>(a: seq<T>, b: seq<T>)
    ensures |Dedup(a)| <= |Dedup(a + b)| && Dedup(a + b)[..|Dedup(a)|] == Dedup(a)
    decreases |b|
  {
    if b == [] {
      assert a + b == a;
    } else {
      var init := b[..|b| - 1];
      DedupPrefix(a, init);
      assert (a + b)[..|a + b| - 1] == a + init;
    }
  }

  /** A sequence without duplicates holds each value at most once. */
  lemma {:induction false} DistinctCount<T>(s: seq<T>, x: T)
    requires Distinct(s)
    ensures multiset(s)[x] <= 1
  {
    if s != [] {
      var init := s[..|s| - 1];
      assert s == init + [s[|s| - 1]];
      DistinctCount(init, x);
      if s[|s| - 1] == x {
        assert x !in init;
      }
    }
  }

  /** A value at two positions is counted at least twice. */
  lemma RepeatCount<T>(s: seq<T>, i: nat, j: nat)
    requires i < j < |s| && s[i] == s[j]
    ensures multiset(s)[s[i]] >= 2
  {
    assert s == s[..i] + [s[i]] + s[i + 1..j] + [s[j]] + s[j + 1..];
  }

  /** A permutation of a sequence without duplicates has none either. */
  lemma DistinctPermutation<T>(a: seq<T>, b: seq<T>)
    requires multiset(a) == multiset(b) && Distinct(a)
    ensures Distinct(b)
  {
    forall i, j | 0 <= i < j < |b| ensures b[i] != b[j] {
      if b[i] == b[j] {
        RepeatCount(b, i, j);
        DistinctCount(a, b[i]);
      }
    }
  }

  /** The comparator is a strict order: irreflexive and transitive. */
  ghost predicate StrictOrder<T(!new)>(lt: (T, T) -> bool) {
    && (forall x :: !lt(x, x))
    && (forall x, y, z :: lt(x, y) && lt(y, z) ==> lt(x, z))
  }

  /** No element is strictly before an element that precedes it. */
  predicate SortedBy<T>(s: seq<T>, lt: (T, T) -> bool) {
    forall i, j :: 0 <= i < j < |s| ==> !lt(s[j], s[i])
  }

  /** Stable insertion: x goes before the first element it is strictly before. */
  function Insert<T>(x: T, ys: seq<T>, lt: (T, T) -> bool): (r: seq<T>)
    ensures multiset(r) == multiset(ys) + multiset{x}
  {
    if ys == [] then [x]
    else if lt(x, ys[0]) then [x] + ys
    else
      assert ys == [ys[0]] + ys[1..];
      [ys[0]] + Insert(x, ys[1..], lt)
  }

  /** Array.prototype.sort with a comparator: stable, so ties keep their input order. */
  function Sort<T>(xs: seq<T>, lt: (T, T) -> bool): (r: seq<T>)
    ensures multiset(r) == multiset(xs)
  {
    if xs == [] then []
    else
      assert xs == xs[..|xs| - 1] + [xs[|xs| - 1]];
      Insert(xs[|xs| - 1], Sort(xs[..|xs| - 1], lt), lt)
  }

  lemma {:induction false} InsertSorted<T(!new)>(x: T, ys: seq<T>, lt: (T, T) -> bool)
    requires StrictOrder(lt) && SortedBy(ys, lt)
    ensures SortedBy(Insert(x, ys, lt), lt)
  {
    if ys != [] && !lt(x, ys[0]) {
      InsertSorted(x, ys[1..], lt);
      var r := Insert(x, ys, lt);
      var tail := Insert(x, ys[1..], lt);
      assert r == [ys[0]] + tail;
      forall j | 0 < j < |r| ensures !lt(r[j], r[0]) {
        assert r[j] in multiset(tail);
        assert r[j] in multiset(ys[1..]) + multiset{x};
        if r[j] != x {
          assert r[j] in ys[1..];
          var k :| 0 <= k < |ys[1..]| && ys[1..][k] == r[j];
          assert ys[k + 1] == r[j];
        }
      }
    }
  }

  /** The sort's result is ordered by the comparator. */
  lemma {:induction false} SortSorted<T(!new)>(xs: seq<T>, lt: (T, T) -> bool)
    requires StrictOrder(lt)
    ensures SortedBy(Sort(xs, lt), lt)
  {
    if xs != [] {
      SortSorted(xs[..|xs| - 1], lt);
      InsertSorted(xs[|xs| - 1], Sort(xs[..|xs| - 1], lt), lt);
    }
  }

  /** The result of collate (localeCompare) orders names strictly where it is negative. */
  ghost predicate CollateOrder(collate: (string, string) -> int) {
    && (forall a :: collate(a, a) >= 0)
    && (forall a, b, c :: collate(a, b) < 0 && collate(b, c) < 0 ==> collate(a, c) < 0)
  }

  /**
   * The comparator fs.ts and FileSearch.tsx pass to sort: a directory comes before a file,
   * and two entries of the same kind are ordered by collate on their names.
   */
  function DirsFirst<T>(isDir: T -> bool, name: T -> string, collate: (string, string) -> int): (T, T) -> bool
  {
    (a: T, b: T) => if isDir(a) == isDir(b) then collate(name(a), name(b)) < 0 else isDir(a)
  }

  lemma DirsFirstIsStrict<T(!new)>(isDir: T -> bool, name: T -> string, collate: (string, string) -> int)
    requires CollateOrder(collate)
    ensures StrictOrder(DirsFirst(isDir, name, collate))
  {
  }

  /** In a sequence sorted directories-first, no file comes before a directory. */
  lemma DirsBeforeFiles<T>(s: seq<T>, isDir: T -> bool, name: T -> string, collate: (string, string) -> int)
    requires SortedBy(s, DirsFirst(isDir, name, collate))
    ensures forall i, j :: 0 <= i < j < |s| && isDir(s[j]) ==> isDir(s[i])
  {
    forall i, j | 0 <= i < j < |s| && isDir(s[j]) ensures isDir(s[i]) {
      assert !DirsFirst(isDir, name, collate)(s[j], s[i]);
    }
  }

  /** The default sort order of strings: lexicographic on character codes. */
  predicate StrLess(a: string, b: string)
    decreases |a|
  {
    if a == [] then b != []
    else if b == [] then false
    else if a[0] != b[0] then a[0] < b[0]
    else StrLess(a[1..], b[1..])
  }

  lemma {:induction false} StrLessIrreflexive(a: string)
    ensures !StrLess(a, a)
  {
    if a != [] { StrLessIrreflexive(a[1..]); }
  }

  lemma {:induction false} StrLessTransitive(a: string, b: string, c: string)
    requires StrLess(a, b) && StrLess(b, c)
    ensures StrLess(a, c)
    decreases |a|
  {
    if a != [] && b != [] && c != [] && a[0] == b[0] && b[0] == c[0] {
      StrLessTransitive(a[1..], b[1..], c[1..]);
    }
  }

  lemma {:induction false} StrLessTotal(a: string, b: string)
    requires a != b
    ensures StrLess(a, b) || StrLess(b, a)
    decreases |a|
  {
    if a != [] && b != [] && a[0] == b[0] {
      assert a == [a[0]] + a[1..] && b == [b[0]] + b[1..];
      StrLessTotal(a[1..], b[1..]);
    }
  }

  function StrLessFn(): (string, string) -> bool {
    (a: string, b: string) => StrLess(a, b)
  }

  lemma StrLessIsStrict()
    ensures StrictOrder(StrLessFn())
  {
    forall a ensures !StrLessFn()(a, a) { StrLessIrreflexive(a); }
    forall a, b, c | StrLessFn()(a, b) && StrLessFn()(b, c) ensures StrLessFn()(a, c) {
      StrLessTransitive(a, b, c);
    }
  }
}
