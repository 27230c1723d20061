/** The array operations the source borrows from JavaScript, as functions on sequences:
    `filter`, `find`/`findIndex`, `slice`, and `sort` with a comparator of the form
    `(a, b) => key(b) - key(a)`. `Array.prototype.sort` is stable (ECMA-262, section
    23.1.3.30), so such a sort is the stable sort by descending key, modelled here by
    insertion sort. */
module Seqs {
  import opened Wrappers

  /** `s.filter(p)`: the elements satisfying `p`, in their original order. */
  function Filter<T>(s: seq<T>, p: T -> bool): (r: seq<T>)
    ensures |r| <= |s|
  {
    if s == [] then []
    else (if p(s[0]) then [s[0]] else []) + Filter(s[1..], p)
  }

  /** `filter` keeps every occurrence of an element that satisfies the predicate and none
      of one that does not. */
  lemma {:induction false} FilterCount<T>(s: seq<T>, p: T -> bool, x: T)
    ensures multiset(Filter(s, p))[x] == if p(x) then multiset(s)[x] else 0
  {
    if s != [] {
      FilterCount(s[1..], p, x);
      assert s == [s[0]] + s[1..];
    }
  }

  /** The elements kept are exactly the elements of `s` that satisfy `p`, none more often
      than in `s`. */
  lemma FilterMembers<T>(s: seq<T>, p: T -> bool)
    ensures forall i :: 0 <= i < |Filter(s, p)| ==> Filter(s, p)[i] in s && p(Filter(s, p)[i])
    ensures forall i :: 0 <= i < |s| && p(s[i]) ==> s[i] in Filter(s, p)
    ensures multiset(Filter(s, p)) <= multiset(s)
  {
    var r := Filter(s, p);
    forall i | 0 <= i < |r| ensures r[i] in s && p(r[i]) {
      FilterCount(s, p, r[i]);
      assert r[i] in multiset(r);
    }
    forall i | 0 <= i < |s| && p(s[i]) ensures s[i] in r {
      FilterCount(s, p, s[i]);
      assert s[i] in multiset(s);
    }
    forall x ensures multiset(r)[x] <= multiset(s)[x] {
      FilterCount(s, p, x);
    }
  }

  /** One element is kept exactly when it satisfies the predicate. */
  lemma FilterOne<T>(x: T, p: T -> bool)
    ensures Filter([x], p) == if p(x) then [x] else []
  {
    assert [x][1..] == [];
  }

  /** `filter` keeps the order of the input: filtering a concatenation filters each part. */
  lemma {:induction false} FilterAppend<T>(a: seq<T>, b: seq<T>, p: T -> bool)
    ensures Filter(a + b, p) == Filter(a, p) + Filter(b, p)
    decreases |a|
  {
    if a == [] {
      assert a + b == b;
    } else {
      var t := a[1..];
      assert (a + b)[0] == a[0] && (a + b)[1..] == t + b;
      FilterAppend(t, b, p);
      var head := if p(a[0]) then [a[0]] else [];
      assert Filter(a + b, p) == head + Filter(t + b, p);
      assert Filter(a, p) == head + Filter(t, p);
    }
  }

  /** `s.findIndex(p)`: the first index whose element satisfies `p`. */
  function FindFirst<T>(s: seq<T>, p: T -> bool): (r: Option<nat>)
    ensures r.Some? ==> r.value < |s| && p(s[r.value])
    ensures r.Some? ==> forall j :: 0 <= j < r.value ==> !p(s[j])
    ensures r.None? ==> forall j :: 0 <= j < |s| ==> !p(s[j])
  {
    if s == [] then None
    else if p(s[0]) then Some(0)
    else
      match FindFirst(s[1..], p)
      case None => None
      case Some(i) => Some(i + 1)
  }

  /** How `slice` turns one of its arguments into an index between 0 and `len`:
      a negative argument counts from the end. */
  function ClampIndex(i: int, len: nat): (k: nat)
    ensures k <= len
  {
    if i < 0 then Max(len + i, 0) else Min(i, len)
  }

  /** `s.slice(start, end)`. */
  function JsSlice<T>(s: seq<T>, start: int, end: int): (r: seq<T>)
    ensures |r| <= |s|
    ensures 0 <= start <= end ==> r == s[Min(start, |s|)..Min(end, |s|)]
    ensures ClampIndex(end, |s|) <= ClampIndex(start, |s|) ==> r == []
  {
    var from, to := ClampIndex(start, |s|), ClampIndex(end, |s|);
    if from < to then s[from..to] else []
  }

  /** Every element of a slice is an element of the sliced sequence. */
  lemma SliceMembers<T>(s: seq<T>, start: int, end: int)
    ensures forall i :: 0 <= i < |JsSlice(s, start, end)| ==> JsSlice(s, start, end)[i] in s
  {
    var from, to := ClampIndex(start, |s|), ClampIndex(end, |s|);
    if from < to {
      assert forall i :: 0 <= i < to - from ==> s[from..to][i] == s[from + i];
    }
  }

  /** No element of `s` has a larger key than an element before it. */
  predicate SortedDesc<T>(s: seq<T>, key: T -> int) {
    forall i, j :: 0 <= i < j < |s| ==> key(s[i]) >= key(s[j])
  }

  /** Inserts `x` in front of the first element whose key is not larger than its own. */
  function InsertDesc<T>(x: T, s: seq<T>, key: T -> int): (r: seq<T>)
    ensures |r| == |s| + 1
    ensures multiset(r) == multiset(s) + multiset{x}
    decreases |s|
  {
    if s == [] || key(x) >= key(s[0]) then [x] + s
    else
      assert s == [s[0]] + s[1..];
      [s[0]] + InsertDesc(x, s[1..], key)
  }

  /** Every element of `s` that sits in a multiset `m` has a key at most `bound`. */
  lemma BoundedByMultiset<T>(s: seq<T>, m: multiset<T>, key: T -> int, bound: int, y: T)
    requires forall j :: 0 <= j < |s| ==> key(s[j]) <= bound
    requires y in m && m == multiset(s)
    ensures key(y) <= bound
  {
    var j :| 0 <= j < |s| && s[j] == y;
  }

  lemma {:induction false} InsertSorted<T>(x: T, s: seq<T>, key: T -> int)
    requires SortedDesc(s, key)
    ensures SortedDesc(InsertDesc(x, s, key), key)
    decreases |s|
  {
    if s == [] || key(x) >= key(s[0]) {
      var r := [x] + s;
      forall i, j | 0 <= i < j < |r| ensures key(r[i]) >= key(r[j]) {
        if i == 0 {
          assert key(s[0]) >= key(s[j - 1]);
        } else {
          assert r[i] == s[i - 1] && r[j] == s[j - 1];
        }
      }
    } else {
      var tail := s[1..];
      var rest := InsertDesc(x, tail, key);
      InsertSorted(x, tail, key);
      forall j | 0 <= j < |rest| ensures key(rest[j]) <= key(s[0]) {
        assert rest[j] in multiset(rest);
        if rest[j] != x {
          assert forall m :: 0 <= m < |tail| ==> key(tail[m]) <= key(s[0]) by {
            forall m | 0 <= m < |tail| ensures key(tail[m]) <= key(s[0]) {
              assert tail[m] == s[m + 1];
            }
          }
          BoundedByMultiset(tail, multiset(tail), key, key(s[0]), rest[j]);
        }
      }
      var r := [s[0]] + rest;
      forall i, j | 0 <= i < j < |r| ensures key(r[i]) >= key(r[j]) {
        assert r[j] == rest[j - 1];
        if i > 0 {
          assert r[i] == rest[i - 1];
        }
      }
    }
  }

  /** The stable sort of `s` by descending key. */
  function SortDesc<T>(s: seq<T>, key: T -> int): (r: seq<T>)
    ensures |r| == |s|
    ensures multiset(r) == multiset(s)
    ensures SortedDesc(r, key)
  {
    if s == [] then []
    else
      assert s == [s[0]] + s[1..];
      var sortedTail := SortDesc(s[1..], key);
      InsertSorted(s[0], sortedTail, key);
      InsertDesc(s[0], sortedTail, key)
  }

  /** The elements of `s` whose key is `k`, in their order in `s`. */
  function KeyClass<T>(s: seq<T>, key: T -> int, k: int): (r: seq<T>)
    ensures forall i :: 0 <= i < |r| ==> key(r[i]) == k
  {
    if s == [] then []
    else (if key(s[0]) == k then [s[0]] else []) + KeyClass(s[1..], key, k)
  }

  /** Inserting `x` adds it at the front of its own key class and leaves the other
      classes as they were. */
  lemma {:induction false} InsertKeyClass<T>(x: T, s: seq<T>, key: T -> int, k: int)
    ensures KeyClass(InsertDesc(x, s, key), key, k)
         == (if key(x) == k then [x] else []) + KeyClass(s, key, k)
    decreases |s|
  {
    if s == [] || key(x) >= key(s[0]) {
      assert ([x] + s)[1..] == s;
    } else {
      var rest := InsertDesc(x, s[1..], key);
      assert ([s[0]] + rest)[1..] == rest;
      InsertKeyClass(x, s[1..], key, k);
    }
  }

  /** Stability: within each key class, the sort keeps the original order. */
  lemma {:induction false} SortDescStable<T>(s: seq<T>, key: T -> int, k: int)
    ensures KeyClass(SortDesc(s, key), key, k) == KeyClass(s, key, k)
  {
    if s != [] {
      SortDescStable(s[1..], key, k);
      InsertKeyClass(s[0], SortDesc(s[1..], key), key, k);
    }
  }

  lemma {:induction false} KeyClassOfUniform<T>(s: seq<T>, key: T -> int, k: int)
    requires forall i :: 0 <= i < |s| ==> key(s[i]) == k
    ensures KeyClass(s, key, k) == s
  {
    if s != [] {
      KeyClassOfUniform(s[1..], key, k);
    }
  }

  lemma {:induction false} KeyClassOfNone<T>(s: seq<T>, key: T -> int, k: int)
    requires forall i :: 0 <= i < |s| ==> key(s[i]) != k
    ensures KeyClass(s, key, k) == []
  {
    if s != [] {
      KeyClassOfNone(s[1..], key, k);
    }
  }

  /** The tail of a sorted sequence is sorted. */
  lemma SortedTail<T>(r: seq<T>, key: T -> int)
    requires SortedDesc(r, key) && r != []
    ensures SortedDesc(r[1..], key)
  {
    var t := r[1..];
    forall i, j | 0 <= i < j < |t| ensures key(t[i]) >= key(t[j]) {
      assert t[i] == r[i + 1] && t[j] == r[j + 1];
    }
  }

  /** In a sorted sequence that starts with the lower of two keys, every key is that one. */
  lemma AllLow<T>(r: seq<T>, key: T -> int, hi: int, lo: int)
    requires SortedDesc(r, key) && hi > lo && r != [] && key(r[0]) == lo
    requires forall i :: 0 <= i < |r| ==> key(r[i]) == hi || key(r[i]) == lo
    ensures forall i :: 0 <= i < |r| ==> key(r[i]) == lo
  {
    forall i | 0 <= i < |r| ensures key(r[i]) == lo {
      if i > 0 {
        assert key(r[0]) >= key(r[i]);
      }
    }
  }

  /** A `hi` element in front of a tail that is its `hi` class followed by its `lo` class
      keeps that shape. */
  lemma TwoClassesStep<T>(r: seq<T>, key: T -> int, hi: int, lo: int)
    requires r != [] && key(r[0]) == hi && hi != lo
    requires r[1..] == KeyClass(r[1..], key, hi) + KeyClass(r[1..], key, lo)
    ensures r == KeyClass(r, key, hi) + KeyClass(r, key, lo)
  {
    assert r == [r[0]] + r[1..];
  }

  /** A sorted sequence whose keys take only the values `hi > lo` is the `hi` class
      followed by the `lo` class. */
  lemma {:induction false} SortedTwoClasses<T>(r: seq<T>, key: T -> int, hi: int, lo: int)
    requires SortedDesc(r, key) && hi > lo
    requires forall i :: 0 <= i < |r| ==> key(r[i]) == hi || key(r[i]) == lo
    ensures r == KeyClass(r, key, hi) + KeyClass(r, key, lo)
  {
    if r != [] {
      if key(r[0]) == hi {
        var t := r[1..];
        SortedTail(r, key);
        assert forall i :: 0 <= i < |t| ==> key(t[i]) == hi || key(t[i]) == lo by {
          assert forall i :: 0 <= i < |t| ==> t[i] == r[i + 1];
        }
        SortedTwoClasses(t, key, hi, lo);
        TwoClassesStep(r, key, hi, lo);
      } else {
        AllLow(r, key, hi, lo);
        KeyClassOfUniform(r, key, lo);
        KeyClassOfNone(r, key, hi);
      }
    }
  }

  /** In a sorted sequence, nothing after position `n` has a larger key than anything
      before it, and the part before `n` is sorted too. */
  lemma PrefixDominates<T(!new)>(t: seq<T>, key: T -> int, n: nat)
    requires SortedDesc(t, key) && n <= |t|
    ensures SortedDesc(t[..n], key)
    ensures forall x, y :: x in multiset(t[n..]) && y in t[..n] ==> key(y) >= key(x)
  {
    forall x, y | x in multiset(t[n..]) && y in t[..n] ensures key(y) >= key(x) {
      var j :| 0 <= j < |t[n..]| && t[n..][j] == x;
      var i :| 0 <= i < n && t[..n][i] == y;
      assert t[i] == y && t[n + j] == x;
    }
  }

  /** Cutting a sequence in two splits its multiset in two. */
  lemma SplitMultiset<T>(t: seq<T>, n: nat)
    requires n <= |t|
    ensures multiset(t[..n]) <= multiset(t)
    ensures multiset(t) - multiset(t[..n]) == multiset(t[n..])
  {
    assert t == t[..n] + t[n..];
  }

  /** `slice(0, end)` is a prefix. */
  lemma SliceFromStart<T>(t: seq<T>, end: int)
    ensures JsSlice(t, 0, end) == t[..ClampIndex(end, |t|)]
  {
  }

  /** `[...s].sort((a, b) => key(b) - key(a)).slice(0, limit)`: the `limit` elements with
      the largest keys. */
  function TopByKey<T(!new)>(s: seq<T>, key: T -> int, limit: int): (r: seq<T>)
    ensures limit >= 0 ==> |r| == Min(limit, |s|)
    ensures SortedDesc(r, key)
    ensures multiset(r) <= multiset(s)
    ensures forall x, y :: x in multiset(s) - multiset(r) && y in r ==> key(y) >= key(x)
  {
    var t := SortDesc(s, key);
    var n := ClampIndex(limit, |t|);
    SliceFromStart(t, limit);
    SplitMultiset(t, n);
    PrefixDominates(t, key, n);
    JsSlice(t, 0, limit)
  }
}

/** Fresh identifiers: `Math.max(...ids) + 1`. */
module Ids {
  import opened Wrappers

  /** The largest identifier of a non-empty list. */
  function MaxId(ids: seq<int>): (m: int)
    requires ids != []
    ensures m in ids
    ensures forall i :: 0 <= i < |ids| ==> ids[i] <= m
  {
    if |ids| == 1 then ids[0]
    else
      var rest := MaxId(ids[1..]);
      if ids[0] >= rest then ids[0] else rest
  }

  /** `Math.max(...ids) + 1` as the source writes it: for an empty list `Math.max()` is
      `-Infinity`, and `-Infinity + 1` is no integer at all (None here). */
  function NextIdAsWritten(ids: seq<int>): (r: Option<int>)
    ensures r.None? <==> ids == []
    ensures r.Some? ==> r.value - 1 in ids && forall i :: 0 <= i < |ids| ==> ids[i] < r.value
  {
    if ids == [] then None else Some(MaxId(ids) + 1)
  }

  /** The discrepancy: a store emptied by deletions gets no integer identifier. */
  lemma EmptyStoreGetsNoId()
    ensures NextIdAsWritten([]).None?
  {
  }

  /** The identifier the code evidently means: one more than every existing identifier,
      and 1 for an empty list. */
  function NextId(ids: seq<int>): (r: int)
    ensures forall i :: 0 <= i < |ids| ==> ids[i] < r
    ensures ids != [] ==> r - 1 in ids
    ensures ids == [] ==> r == 1
    ensures ids != [] ==> NextIdAsWritten(ids) == Some(r)
  {
    if ids == [] then 1 else MaxId(ids) + 1
  }
}
