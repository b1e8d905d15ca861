/** Python's `list.sort(key=...)` and SQL `ORDER BY`: a stable sort on a lexicographic pair of
    integers. A descending sort on a timestamp `t` is the ascending sort on the key `-t`. */
module Sorting {
  import opened Seqs

  /** A sort key: compared on `major` first, then on `minor` (Python tuple comparison). */
  datatype Key = Key(major: int, minor: int)

  predicate KeyLe(a: Key, b: Key)
  {
    a.major < b.major || (a.major == b.major && a.minor <= b.minor)
  }

  predicate SortedBy<T>(s: seq<T>, key: T -> Key)
  {
    forall i, j :: 0 <= i < j < |s| ==> KeyLe(key(s[i]), key(s[j]))
  }

  /** The elements whose key is exactly `k`: the equivalence classes of a sort. */
  function KeyIs<T>(key: T -> Key, k: Key): T -> bool
  {
    (x: T) => key(x) == k
  }

  /** Inserts `x` after every element whose key is not greater than its own. */
  function Insert<T>(t: seq<T>, x: T, key: T -> Key): (r: seq<T>)
    ensures |r| == |t| + 1
    ensures multiset(r) == multiset(t) + multiset{x}
  {
    if t == [] then [x]
    else if KeyLe(key(t[0]), key(x)) then
      assert t == [t[0]] + t[1..];
      [t[0]] + Insert(t[1..], x, key)
    else [x] + t
  }

  lemma {:induction false} InsertSorted<T>(t: seq<T>, x: T, key: T -> Key)
    requires SortedBy(t, key)
    ensures SortedBy(Insert(t, x, key), key)
    decreases |t|
  {
    if t != [] && KeyLe(key(t[0]), key(x)) {
      InsertSorted(t[1..], x, key);
      var r := Insert(t, x, key);
      var r' := Insert(t[1..], x, key);
      assert r == [t[0]] + r';
      forall j | 1 <= j < |r| ensures KeyLe(key(r[0]), key(r[j])) {
        assert r[j] == r'[j - 1];
        assert r[j] in multiset(r');
        assert r[j] in multiset(t[1..]) + multiset{x};
        if r[j] != x {
          assert r[j] in t[1..];
          var m :| 0 <= m < |t[1..]| && t[1..][m] == r[j];
          assert t[m + 1] == r[j];
        }
      }
    }
  }

  /** Python's stable `sort(key=...)`: sorting the first n - 1 elements and then inserting the
      last one after its equals. */
  function SortBy<T>(s: seq<T>, key: T -> Key): (r: seq<T>)
    ensures |r| == |s|
    ensures SortedBy(r, key)
    ensures multiset(r) == multiset(s)
    decreases |s|
  {
    if s == [] then []
    else
      var n := |s| - 1;
      var t := SortBy(s[..n], key);
      InsertSorted(t, s[n], key);
      assert s == s[..n] + [s[n]];
      Insert(t, s[n], key)
  }

  /** Inserting into a sorted list keeps the relative order of each class of equal keys, and the
      new element becomes the last of its class. */
  lemma {:induction false} InsertStable<T>(t: seq<T>, x: T, key: T -> Key, k: Key)
    requires SortedBy(t, key)
    ensures Filter(Insert(t, x, key), KeyIs(key, k)) == Filter(t, KeyIs(key, k)) + Filter([x], KeyIs(key, k))
    decreases |t|
  {
    var p := KeyIs(key, k);
    FilterSingle(x, p);
    if t == [] {
      assert [] + [x] == [x];
    } else if KeyLe(key(t[0]), key(x)) {
      InsertStableAfter(t, x, key, k);
    } else {
      InsertStableBefore(t, x, key, k);
    }
  }

  lemma {:induction false} InsertStableAfter<T>(t: seq<T>, x: T, key: T -> Key, k: Key)
    requires SortedBy(t, key) && t != [] && KeyLe(key(t[0]), key(x))
    ensures Filter(Insert(t, x, key), KeyIs(key, k)) == Filter(t, KeyIs(key, k)) + Filter([x], KeyIs(key, k))
    decreases |t|, 0
  {
    SortedTail(t, key);
    InsertStable(t[1..], x, key, k);
    FilterInsertAfterHead(t, x, key, KeyIs(key, k));
  }

  /** When `x` goes behind the head, the head is filtered first and the rest as before. */
  lemma FilterInsertAfterHead<T>(t: seq<T>, x: T, key: T -> Key, p: T -> bool)
    requires t != [] && KeyLe(key(t[0]), key(x))
    requires Filter(Insert(t[1..], x, key), p) == Filter(t[1..], p) + Filter([x], p)
    ensures Filter(Insert(t, x, key), p) == Filter(t, p) + Filter([x], p)
  {
    var head := if p(t[0]) then [t[0]] else [];
    FilterInsertedTail(t, x, key, p);
    FilterHeadTail(t, p);
    SeqAssoc(head, Filter(t[1..], p), Filter([x], p));
  }

  lemma FilterInsertedTail<T>(t: seq<T>, x: T, key: T -> Key, p: T -> bool)
    requires t != [] && KeyLe(key(t[0]), key(x))
    ensures Filter(Insert(t, x, key), p)
      == (if p(t[0]) then [t[0]] else []) + Filter(Insert(t[1..], x, key), p)
  {
    InsertAfterHead(t, x, key);
    FilterCons(t[0], Insert(t[1..], x, key), p);
  }

  lemma FilterHeadTail<T>(t: seq<T>, p: T -> bool)
    requires t != []
    ensures Filter(t, p) == (if p(t[0]) then [t[0]] else []) + Filter(t[1..], p)
  {
    assert [t[0]] + t[1..] == t;
    FilterCons(t[0], t[1..], p);
  }

  lemma SeqAssoc<T>(a: seq<T>, b: seq<T>, c: seq<T>)
    ensures a + (b + c) == (a + b) + c
  {
  }

  lemma InsertAfterHead<T>(t: seq<T>, x: T, key: T -> Key)
    requires t != [] && KeyLe(key(t[0]), key(x))
    ensures Insert(t, x, key) == [t[0]] + Insert(t[1..], x, key)
  {
  }

  lemma SortedTail<T>(t: seq<T>, key: T -> Key)
    requires SortedBy(t, key) && t != []
    ensures SortedBy(t[1..], key)
  {
    var u := t[1..];
    forall i, j | 0 <= i < j < |u| ensures KeyLe(key(u[i]), key(u[j])) {
      assert u[i] == t[i + 1] && u[j] == t[j + 1];
    }
  }

  lemma InsertStableBefore<T>(t: seq<T>, x: T, key: T -> Key, k: Key)
    requires SortedBy(t, key) && t != [] && !KeyLe(key(t[0]), key(x))
    ensures Filter(Insert(t, x, key), KeyIs(key, k)) == Filter(t, KeyIs(key, k)) + Filter([x], KeyIs(key, k))
  {
    var p := KeyIs(key, k);
    FilterSingle(x, p);
    assert Insert(t, x, key) == [x] + t;
    FilterCons(x, t, p);
    if key(x) == k {
      forall i | 0 <= i < |t| ensures !p(t[i]) {
        assert KeyLe(key(t[0]), key(t[i])) || i == 0;
      }
      FilterNone(t, p);
    }
  }

  /** Sorting a list is sorting all but its last element and then inserting that one. */
  lemma SortByLast<T>(s: seq<T>, key: T -> Key)
    requires s != []
    ensures SortBy(s, key) == Insert(SortBy(s[..|s| - 1], key), s[|s| - 1], key)
  {
  }

  /** Stability: within every class of equal keys the sort keeps the input order. */
  lemma {:induction false} SortStable<T>(s: seq<T>, key: T -> Key, k: Key)
    ensures Filter(SortBy(s, key), KeyIs(key, k)) == Filter(s, KeyIs(key, k))
    decreases |s|
  {
    if s != [] {
      var n := |s| - 1;
      SortStable(s[..n], key, k);
      SortByLast(s, key);
      InsertStable(SortBy(s[..n], key), s[n], key, k);
      FilterLast(s, KeyIs(key, k));
    }
  }

  /** The first n elements of a sorted list come before every element that was cut off: `[:n]`
      of a sorted list is its top n. */
  lemma TakeIsTop<T>(s: seq<T>, key: T -> Key, n: nat)
    requires SortedBy(s, key)
    ensures forall i, j :: 0 <= i < |Take(s, n)| && 0 <= j < |Drop(s, n)| ==>
      KeyLe(key(Take(s, n)[i]), key(Drop(s, n)[j]))
  {
    forall i, j | 0 <= i < |Take(s, n)| && 0 <= j < |Drop(s, n)|
      ensures KeyLe(key(Take(s, n)[i]), key(Drop(s, n)[j]))
    {
      assert Take(s, n)[i] == s[i];
      assert Drop(s, n)[j] == s[n + j];
    }
  }

  /** `sorted(s, key)[:n]`: sorted, drawn from `s`, as long as allowed, and no element that was
      cut off sorts before a kept one. */
  lemma TopN<T>(s: seq<T>, key: T -> Key, n: nat)
    ensures var r := Take(SortBy(s, key), n);
      SortedBy(r, key) && |r| == (if n <= |s| then n else |s|)
      && multiset(s) == multiset(r) + multiset(Drop(SortBy(s, key), n))
      && forall i, j :: 0 <= i < |r| && 0 <= j < |Drop(SortBy(s, key), n)| ==>
           KeyLe(key(r[i]), key(Drop(SortBy(s, key), n)[j]))
  {
    var t := SortBy(s, key);
    TakeIsTop(t, key, n);
    assert t == Take(t, n) + Drop(t, n);
    var r := Take(t, n);
    forall i, j | 0 <= i < j < |r| ensures KeyLe(key(r[i]), key(r[j])) {
      assert r[i] == t[i] && r[j] == t[j];
    }
  }

  /** A contiguous slice of a sorted list is sorted. */
  lemma SliceSorted<T>(s: seq<T>, key: T -> Key, skip: nat, limit: nat)
    requires SortedBy(s, key)
    ensures SortedBy(Take(Drop(s, skip), limit), key)
  {
    var r := Take(Drop(s, skip), limit);
    forall i, j | 0 <= i < j < |r| ensures KeyLe(key(r[i]), key(r[j])) {
      assert r[i] == s[skip + i] && r[j] == s[skip + j];
    }
  }

  /** Sorting neither adds nor loses elements. */
  lemma SortByIn<T>(s: seq<T>, key: T -> Key, x: T)
    ensures x in SortBy(s, key) <==> x in s
  {
    assert x in SortBy(s, key) <==> x in multiset(SortBy(s, key));
    assert x in s <==> x in multiset(s);
  }

  /** `query.filter(p).order_by(key).offset(skip).limit(limit).all()`: the rows matching `p`, in
      key order, the first `skip` of them left out and at most `limit` returned. */
  function Page<T>(s: seq<T>, p: T -> bool, key: T -> Key, skip: nat, limit: nat): (r: seq<T>)
    ensures |r| <= limit
    ensures forall x :: x in r ==> x in s && p(x)
    ensures SortedBy(r, key)
  {
    var sorted := SortBy(Filter(s, p), key);
    SliceSorted(sorted, key, skip, limit);
    assert forall x :: x in Take(Drop(sorted, skip), limit) ==> x in sorted;
    assert forall x :: x in sorted ==> x in Filter(s, p) by {
      forall x | x in sorted ensures x in Filter(s, p) { SortByIn(Filter(s, p), key, x); }
    }
    Take(Drop(sorted, skip), limit)
  }

  /** Every element of `a` sorts no later than every element of `b`. */
  predicate AllBefore<T>(a: seq<T>, b: seq<T>, key: T -> Key)
  {
    forall i, j :: 0 <= i < |a| && 0 <= j < |b| ==> KeyLe(key(a[i]), key(b[j]))
  }

  /** A page is the slice `[skip, skip + limit)` of the sorted matching rows: it is as long as
      that slice, it splits the matching rows with the rows skipped before it and the rows left
      after it, and it sorts after every skipped row and before every row left after it. */
  lemma PageSpec<T>(s: seq<T>, p: T -> bool, key: T -> Key, skip: nat, limit: nat)
    ensures var own := SortBy(Filter(s, p), key);
      var r := Page(s, p, key, skip, limit);
      |r| == (if |own| <= skip then 0 else if |own| - skip <= limit then |own| - skip else limit)
      && multiset(Filter(s, p)) == multiset(Take(own, skip)) + multiset(r) + multiset(Drop(own, skip + limit))
      && AllBefore(Take(own, skip), r, key) && AllBefore(r, Drop(own, skip + limit), key)
  {
    var own := SortBy(Filter(s, p), key);
    SliceParts(own, key, skip, limit);
  }

  /** The three parts of a sorted list around the slice `[skip, skip + limit)`. */
  lemma SliceParts<T>(own: seq<T>, key: T -> Key, skip: nat, limit: nat)
    requires SortedBy(own, key)
    ensures var r := Take(Drop(own, skip), limit);
      own == Take(own, skip) + r + Drop(own, skip + limit)
      && AllBefore(Take(own, skip), r, key) && AllBefore(r, Drop(own, skip + limit), key)
  {
    SliceJoin(own, skip, limit);
    SkippedBefore(own, key, skip, limit);
    LaterAfter(own, key, skip, limit);
  }

  lemma SliceJoin<T>(own: seq<T>, skip: nat, limit: nat)
    ensures own == Take(own, skip) + Take(Drop(own, skip), limit) + Drop(own, skip + limit)
  {
    var rest := Drop(own, skip);
    assert own == Take(own, skip) + rest;
    assert rest == Take(rest, limit) + Drop(rest, limit);
    assert Drop(rest, limit) == Drop(own, skip + limit);
  }

  lemma SkippedBefore<T>(own: seq<T>, key: T -> Key, skip: nat, limit: nat)
    requires SortedBy(own, key)
    ensures AllBefore(Take(own, skip), Take(Drop(own, skip), limit), key)
  {
    var front, r := Take(own, skip), Take(Drop(own, skip), limit);
    forall i, j | 0 <= i < |front| && 0 <= j < |r| ensures KeyLe(key(front[i]), key(r[j])) {
      assert front[i] == own[i] && r[j] == own[skip + j];
    }
  }

  lemma LaterAfter<T>(own: seq<T>, key: T -> Key, skip: nat, limit: nat)
    requires SortedBy(own, key)
    ensures AllBefore(Take(Drop(own, skip), limit), Drop(own, skip + limit), key)
  {
    var r, back := Take(Drop(own, skip), limit), Drop(own, skip + limit);
    forall i, j | 0 <= i < |r| && 0 <= j < |back| ensures KeyLe(key(r[i]), key(back[j])) {
      assert r[i] == own[skip + i] && back[j] == own[skip + limit + j];
    }
  }

  /** The first page, when it is large enough, holds every matching row exactly once. */
  lemma {:induction false} PageComplete<T>(s: seq<T>, p: T -> bool, key: T -> Key, limit: nat)
    requires limit >= Count(s, p)
    ensures multiset(Page(s, p, key, 0, limit)) == multiset(Filter(s, p))
    ensures forall x :: x in s && p(x) ==> x in Page(s, p, key, 0, limit)
  {
    var sorted := SortBy(Filter(s, p), key);
    assert Drop(sorted, 0) == sorted;
    assert Take(sorted, limit) == sorted;
    forall x | x in s && p(x) ensures x in Page(s, p, key, 0, limit) {
      FilterIn(s, p, x);
      SortByIn(Filter(s, p), key, x);
    }
  }
}
