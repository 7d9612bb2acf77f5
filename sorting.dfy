/** `Array.prototype.sort` with a comparator that orders by a numeric key, largest first,
    written as an insertion sort. */
module Sorting {
  import opened Seqs

  /** Non-increasing by `key`. */
  ghost predicate SortedDesc<T>(s: seq<T>, key: T -> real) {
    forall i, j :: 0 <= i < j < |s| ==> key(s[i]) >= key(s[j])
  }

  /** Puts `x` before the first element whose key it reaches. */
  function Insert<T>(x: T, s: seq<T>, key: T -> real): (r: seq<T>)
    ensures |r| == |s| + 1
    ensures multiset(r) == multiset(s) + multiset{x}
  {
    if s == [] then [x]
    else if key(x) >= key(s[0]) then [x] + s
    else
      assert s == [s[0]] + s[1..];
      [s[0]] + Insert(x, s[1..], key)
  }

  /** A bound on every key survives an insertion that respects it. */
  lemma {:induction false} InsertBelow<T>(x: T, s: seq<T>, key: T -> real, b: real)
    requires key(x) <= b
    requires forall k :: 0 <= k < |s| ==> key(s[k]) <= b
    ensures forall k :: 0 <= k < |Insert(x, s, key)| ==> key(Insert(x, s, key)[k]) <= b
  {
    if s != [] && key(x) < key(s[0]) {
      InsertBelow(x, s[1..], key, b);
      var r := Insert(x, s, key);
      assert r == [s[0]] + Insert(x, s[1..], key);
      forall k | 0 <= k < |r|
        ensures key(r[k]) <= b
      {
        if k > 0 {
          assert r[k] == Insert(x, s[1..], key)[k - 1];
        }
      }
    }
  }

  lemma SortedTail<T>(s: seq<T>, key: T -> real)
    requires s != [] && SortedDesc(s, key)
    ensures SortedDesc(s[1..], key)
  {
    forall i, j | 0 <= i < j < |s[1..]|
      ensures key(s[1..][i]) >= key(s[1..][j])
    {
      assert s[1..][i] == s[i + 1] && s[1..][j] == s[j + 1];
    }
  }

  /** Inserting into a sorted sequence keeps it sorted. */
  lemma {:induction false} InsertSorted<T>(x: T, s: seq<T>, key: T -> real)
    requires SortedDesc(s, key)
    ensures SortedDesc(Insert(x, s, key), key)
  {
    if s == [] {
    } else if key(x) >= key(s[0]) {
      forall k | 0 <= k < |s|
        ensures key(x) >= key(s[k])
      {
        if k > 0 {
          assert key(s[0]) >= key(s[k]);
        }
      }
      ConsSorted(x, s, key);
    } else {
      SortedTail(s, key);
      InsertSorted(x, s[1..], key);
      forall k | 0 <= k < |s[1..]|
        ensures key(s[1..][k]) <= key(s[0])
      {
        assert s[1..][k] == s[k + 1];
      }
      InsertBelow(x, s[1..], key, key(s[0]));
      ConsSorted(s[0], Insert(x, s[1..], key), key);
    }
  }

  /** The elements of `s`, largest key first. */
  function SortDesc<T>(s: seq<T>, key: T -> real): (r: seq<T>)
    ensures |r| == |s|
    ensures multiset(r) == multiset(s)
    ensures SortedDesc(r, key)
  {
    if s == [] then []
    else
      assert s == [s[0]] + s[1..];
      InsertSorted(s[0], SortDesc(s[1..], key), key);
      Insert(s[0], SortDesc(s[1..], key), key)
  }

  /** The elements whose key is `v`. */
  function KeyIs<T>(key: T -> real, v: real): T -> bool {
    (x: T) => key(x) == v
  }

  /** Among the elements of one key, an insertion puts `x` first, as if it were put in
      front: every element before its place has a larger key. */
  lemma {:induction false} InsertStable<T>(x: T, s: seq<T>, key: T -> real, v: real)
    ensures Filter(Insert(x, s, key), KeyIs(key, v)) == Filter([x] + s, KeyIs(key, v))
  {
    var p := KeyIs(key, v);
    if s != [] && key(x) < key(s[0]) {
      var tail := Insert(x, s[1..], key);
      InsertStable(x, s[1..], key, v);
      assert Insert(x, s, key) == [s[0]] + tail;
      FilterStep([s[0]] + tail, p);
      assert ([s[0]] + tail)[1..] == tail;
      FilterStep([x] + s[1..], p);
      assert ([x] + s[1..])[1..] == s[1..];
      FilterStep([x] + s, p);
      assert ([x] + s)[1..] == s;
      FilterStep(s, p);
    }
  }

  /** The sort is stable: the elements of each key come out in their input order. */
  lemma {:induction false} SortDescStable<T>(s: seq<T>, key: T -> real, v: real)
    ensures Filter(SortDesc(s, key), KeyIs(key, v)) == Filter(s, KeyIs(key, v))
  {
    if s != [] {
      var p := KeyIs(key, v);
      var rest := SortDesc(s[1..], key);
      SortDescStable(s[1..], key, v);
      InsertStable(s[0], rest, key, v);
      FilterStep([s[0]] + rest, p);
      assert ([s[0]] + rest)[1..] == rest;
      FilterStep(s, p);
    }
  }

  /** Filtering a sorted sequence leaves it sorted. */
  lemma {:induction false} FilterKeepsSorted<T>(s: seq<T>, p: T -> bool, key: T -> real)
    requires SortedDesc(s, key)
    ensures SortedDesc(Filter(s, p), key)
  {
    if s != [] {
      SortedTail(s, key);
      FilterKeepsSorted(s[1..], p, key);
      var rest := Filter(s[1..], p);
      if p(s[0]) {
        forall k | 0 <= k < |rest|
          ensures key(s[0]) >= key(rest[k])
        {
          var j :| 0 <= j < |s[1..]| && s[1..][j] == rest[k];
          assert s[j + 1] == rest[k];
        }
        FilterStep(s, p);
        ConsSorted(s[0], rest, key);
      } else {
        FilterStep(s, p);
      }
    }
  }

  lemma ConsSorted<T>(x: T, s: seq<T>, key: T -> real)
    requires SortedDesc(s, key)
    requires forall k :: 0 <= k < |s| ==> key(x) >= key(s[k])
    ensures SortedDesc([x] + s, key)
  {
    forall i, j | 0 <= i < j < |[x] + s|
      ensures key(([x] + s)[i]) >= key(([x] + s)[j])
    {
      assert ([x] + s)[j] == s[j - 1];
      if i > 0 {
        assert ([x] + s)[i] == s[i - 1];
      }
    }
  }
}
