/**
 * List operations the core relies on: comprehension filters, `sum`, counting,
 * Python's prefix slice `s[:k]` and the stable `sort(key=..., reverse=True)`.
 */
module Collections {

  /** `[x for x in s if f(x)]`. */
  function Filter<T>(s: seq<T>, f: T -> bool): (r: seq<T>)
    ensures |r| <= |s|
    ensures forall i :: 0 <= i < |r| ==> r[i] in s && f(r[i])
    ensures forall i :: 0 <= i < |s| && f(s[i]) ==> s[i] in r
  {
    if s == [] then [] else (if f(s[0]) then [s[0]] else []) + Filter(s[1..], f)
  }

  /** Filtering distributes over concatenation, so the kept elements stay in their order. */
  lemma {:induction false} FilterAppend<T>(a: seq<T>, b: seq<T>, f: T -> bool)
    ensures Filter(a + b, f) == Filter(a, f) + Filter(b, f)
  {
    if a == [] {
      assert a + b == b;
    } else {
      var h: seq<T> := if f(a[0]) then [a[0]] else [];
      var ab := a + b;
      assert ab[0] == a[0];
      assert ab[1..] == a[1..] + b;
      FilterAppend(a[1..], b, f);
      calc {
        Filter(ab, f);
        h + Filter(a[1..] + b, f);
        h + (Filter(a[1..], f) + Filter(b, f));
        (h + Filter(a[1..], f)) + Filter(b, f);
      }
    }
  }

  /** A filter whose condition holds everywhere keeps the whole list. */
  lemma {:induction false} FilterAll<T>(s: seq<T>, f: T -> bool)
    requires forall i :: 0 <= i < |s| ==> f(s[i])
    ensures Filter(s, f) == s
  {
    if s != [] {
      FilterAll(s[1..], f);
      assert s == [s[0]] + s[1..];
    }
  }

  /** A filter whose condition fails everywhere keeps nothing. */
  lemma {:induction false} FilterNone<T>(s: seq<T>, f: T -> bool)
    requires forall i :: 0 <= i < |s| ==> !f(s[i])
    ensures Filter(s, f) == []
  {
    if s != [] {
      FilterNone(s[1..], f);
    }
  }

  /** Elements around a slice that all fail the condition do not change the filter. */
  lemma FilterMiddle<T>(a: seq<T>, m: seq<T>, b: seq<T>, f: T -> bool)
    requires forall i :: 0 <= i < |a| ==> !f(a[i])
    requires forall i :: 0 <= i < |b| ==> !f(b[i])
    ensures Filter(a + m + b, f) == Filter(m, f)
  {
    FilterAppend(a + m, b, f);
    FilterAppend(a, m, f);
    FilterNone(a, f);
    FilterNone(b, f);
  }

  /** Filtering by `f` and then by `g` is filtering once by their conjunction `h`. */
  lemma {:induction false} FilterFilter<T>(s: seq<T>, f: T -> bool, g: T -> bool, h: T -> bool)
    requires forall x :: h(x) == (f(x) && g(x))
    ensures Filter(Filter(s, f), g) == Filter(s, h)
  {
    if s != [] {
      var head: seq<T> := if f(s[0]) then [s[0]] else [];
      FilterFilter(s[1..], f, g, h);
      FilterAppend(head, Filter(s[1..], f), g);
      if f(s[0]) {
        assert Filter(head, g) == (if g(s[0]) then [s[0]] else []) by {
          assert head[1..] == [];
        }
      }
    }
  }

  /** `sum(xs)`. */
  function Sum(xs: seq<real>): real {
    if xs == [] then 0.0 else xs[0] + Sum(xs[1..])
  }

  lemma {:induction false} SumAppend(a: seq<real>, b: seq<real>)
    ensures Sum(a + b) == Sum(a) + Sum(b)
  {
    if a == [] {
      assert a + b == b;
    } else {
      SumAppend(a[1..], b);
      assert (a + b)[1..] == a[1..] + b;
    }
  }

  /** `sum(xs)` over integers. */
  function SumInt(xs: seq<int>): int {
    if xs == [] then 0 else xs[0] + SumInt(xs[1..])
  }

  /** How many entries of `s` are true. */
  function CountTrue(s: seq<bool>): (n: nat)
    ensures n <= |s|
  {
    if s == [] then 0 else (if s[0] then 1 else 0) + CountTrue(s[1..])
  }

  /** Where every flag of `a` implies the flag of `b` at the same place, `b` has at least as many. */
  lemma {:induction false} CountTrueMonotone(a: seq<bool>, b: seq<bool>)
    requires |a| == |b|
    requires forall i :: 0 <= i < |a| ==> a[i] ==> b[i]
    ensures CountTrue(a) <= CountTrue(b)
  {
    if a != [] {
      CountTrueMonotone(a[1..], b[1..]);
    }
  }

  /** `s.count(x)`. */
  function Occurrences<T(==)>(s: seq<T>, x: T): (n: nat)
    ensures n <= |s|
  {
    if s == [] then 0 else (if s[0] == x then 1 else 0) + Occurrences(s[1..], x)
  }

  /** `s[:k]` for any integer `k` (a negative `k` drops that many from the end). */
  function Head<T>(s: seq<T>, k: int): (r: seq<T>)
    ensures 0 <= k ==> |r| == if k < |s| then k else |s|
    ensures k < 0 ==> |r| == if -k < |s| then |s| + k else 0
    ensures r == s[..|r|]
  {
    if 0 <= k then (if k < |s| then s[..k] else s)
    else if -k < |s| then s[..|s| + k] else []
  }

  /** The elements appear in non-increasing order of `key`. */
  ghost predicate SortedDesc<T>(s: seq<T>, key: T -> real) {
    forall i, j :: 0 <= i < j < |s| ==> key(s[i]) >= key(s[j])
  }

  /** Inserts `x` after every element whose key is at least `key(x)`. */
  function Insert<T>(s: seq<T>, x: T, key: T -> real): (r: seq<T>)
    ensures |r| == |s| + 1
    ensures multiset(r) == multiset(s) + multiset{x}
    ensures forall i :: 0 <= i < |r| ==> r[i] in s || r[i] == x
  {
    if s == [] then [x]
    else if key(s[0]) >= key(x) then
      assert s == [s[0]] + s[1..];
      [s[0]] + Insert(s[1..], x, key)
    else
      [x] + s
  }

  lemma {:induction false} InsertSorted<T>(s: seq<T>, x: T, key: T -> real)
    requires SortedDesc(s, key)
    ensures SortedDesc(Insert(s, x, key), key)
  {
    if s != [] && key(s[0]) >= key(x) {
      var t := s[1..];
      InsertSorted(t, x, key);
      var r := Insert(t, x, key);
      forall i | 0 <= i < |r| ensures key(s[0]) >= key(r[i]) {
        if r[i] != x {
          var j :| 0 <= j < |t| && t[j] == r[i];
          assert s[j + 1] == t[j];
        }
      }
      assert Insert(s, x, key) == [s[0]] + r;
    }
  }

  /** `sorted(s, key=key, reverse=True)`: the elements rearranged into non-increasing key order. */
  function SortDesc<T>(s: seq<T>, key: T -> real): (r: seq<T>)
    ensures SortedDesc(r, key)
    ensures multiset(r) == multiset(s)
    ensures |r| == |s|
  {
    if s == [] then []
    else
      assert s == s[..|s| - 1] + [s[|s| - 1]];
      InsertSorted(SortDesc(s[..|s| - 1], key), s[|s| - 1], key);
      Insert(SortDesc(s[..|s| - 1], key), s[|s| - 1], key)
  }

  /**
   * After a descending sort and a cut to the first `k`, nothing that was cut
   * scores above anything that was kept: the kept elements are a top-k.
   */
  lemma TopOfSorted<T>(s: seq<T>, key: T -> real, k: nat, d: T)
    requires SortedDesc(s, key)
    requires d in s && d !in s[..if k < |s| then k else |s|]
    ensures forall x :: x in s[..if k < |s| then k else |s|] ==> key(d) <= key(x)
  {
    var n := if k < |s| then k else |s|;
    var j :| 0 <= j < |s| && s[j] == d;
    assert j >= n;
    forall x | x in s[..n] ensures key(d) <= key(x) {
      var i :| 0 <= i < n && s[..n][i] == x;
    }
  }

  /** `a` can be obtained from `b` by deleting elements: same elements, same relative order. */
  predicate IsSubsequence<T(==)>(a: seq<T>, b: seq<T>)
    decreases |b|
  {
    a == [] || (b != [] && if a[0] == b[0] then IsSubsequence(a[1..], b[1..]) else IsSubsequence(a, b[1..]))
  }

  /** Keeping some of three distinct elements, in order, gives a subsequence of the three. */
  lemma SubsequenceOfThree<T>(p: bool, q: bool, r: bool, x: T, y: T, z: T)
    requires x != y && y != z && x != z
    ensures IsSubsequence((if p then [x] else []) + (if q then [y] else []) + (if r then [z] else []), [x, y, z])
  {
    var tail: seq<T> := if r then [z] else [];
    assert IsSubsequence(tail, [z]);
    var mid: seq<T> := (if q then [y] else []) + tail;
    assert [y, z][1..] == [z];
    assert IsSubsequence(mid, [y, z]);
    var all := (if p then [x] else []) + mid;
    assert [x, y, z][1..] == [y, z];
    assert all == (if p then [x] else []) + (if q then [y] else []) + (if r then [z] else []);
  }

  /** What a filter keeps stands in the original order. */
  lemma {:induction false} FilterIsSubsequence<T>(s: seq<T>, f: T -> bool)
    ensures IsSubsequence(Filter(s, f), s)
  {
    if s != [] {
      FilterIsSubsequence(s[1..], f);
      if f(s[0]) {
        assert Filter(s, f) == [s[0]] + Filter(s[1..], f);
      } else {
        assert Filter(s, f) == Filter(s[1..], f);
        SubsequenceDropHead(Filter(s[1..], f), s);
      }
    }
  }

  /** A subsequence of the tail is a subsequence of the whole. */
  lemma {:induction false} SubsequenceDropHead<T>(a: seq<T>, s: seq<T>)
    requires s != [] && IsSubsequence(a, s[1..])
    ensures IsSubsequence(a, s)
    decreases |s|, |a|
  {
    if a != [] && a[0] == s[0] {
      if |s| > 1 && a[1..] != [] {
        assert IsSubsequence(a[1..], s[1..]) by {
          SubsequenceTail(a, s[1..]);
        }
      }
    }
  }

  /** Dropping the first element of a subsequence keeps it a subsequence. */
  lemma {:induction false} SubsequenceTail<T>(a: seq<T>, s: seq<T>)
    requires a != [] && IsSubsequence(a, s)
    ensures IsSubsequence(a[1..], s)
    decreases |s|, |a|
  {
    if a[0] == s[0] {
      if a[1..] != [] {
        SubsequenceDropHead(a[1..], s);
      }
    } else {
      SubsequenceTail(a, s[1..]);
      SubsequenceDropHead(a[1..], s);
    }
  }
}
