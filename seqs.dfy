/** Sequence helpers shared by the model: JavaScript's `filter`, `reduce` sums,
    order-preserving subsequences, and the descending sort that stands for
    Prisma's `orderBy: 'desc'` and for `Array.prototype.sort` with a
    newest-first comparator. */
module Seqs {

  /** `s.filter(p)`. */
  function Filter<T>(p: T -> bool, s: seq<T>): (r: seq<T>)
    ensures |r| <= |s|
    ensures forall i :: 0 <= i < |r| ==> p(r[i]) && r[i] in s
  {
    if s == [] then []
    else (if p(s[0]) then [s[0]] else []) + Filter(p, s[1..])
  }

  /** `Filter` keeps every occurrence of an element that satisfies `p` and
      nothing else. */
  lemma {:induction false} FilterMultiset<T>(p: T -> bool, s: seq<T>, x: T)
    ensures multiset(Filter(p, s))[x] == if p(x) then multiset(s)[x] else 0
  {
    if s != [] {
      assert s == [s[0]] + s[1..];
      FilterMultiset(p, s[1..], x);
    }
  }

  lemma {:induction false} FilterAppend<T>(p: T -> bool, s: seq<T>, x: T)
    ensures Filter(p, s + [x]) == Filter(p, s) + (if p(x) then [x] else [])
  {
    if s == [] {
      assert s + [x] == [x];
      assert [x][1..] == [];
    } else {
      var t := s + [x];
      assert t[0] == s[0];
      assert t[1..] == s[1..] + [x];
      var h := if p(s[0]) then [s[0]] else [];
      assert Filter(p, t) == h + Filter(p, t[1..]);
      FilterAppend(p, s[1..], x);
      assert Filter(p, s) == h + Filter(p, s[1..]);
    }
  }

  lemma {:induction false} FilterConcat<T>(p: T -> bool, a: seq<T>, b: seq<T>)
    ensures Filter(p, a + b) == Filter(p, a) + Filter(p, b)
  {
    if a != [] {
      assert (a + b)[0] == a[0];
      assert (a + b)[1..] == a[1..] + b;
      FilterConcat(p, a[1..], b);
    } else {
      assert a + b == b;
    }
  }

  /** A filter that no element passes keeps nothing; one every element
      passes keeps everything. */
  lemma {:induction false} FilterNoneOrAll<T>(p: T -> bool, s: seq<T>)
    ensures (forall i :: 0 <= i < |s| ==> !p(s[i])) ==> Filter(p, s) == []
    ensures (forall i :: 0 <= i < |s| ==> p(s[i])) ==> Filter(p, s) == s
  {
    if s != [] {
      FilterNoneOrAll(p, s[1..]);
      assert forall i :: 1 <= i < |s| ==> s[1..][i - 1] == s[i];
      assert s == [s[0]] + s[1..];
    }
  }

  /** Two filters in a row are one filter by the conjunction. */
  lemma {:induction false} FilterFilter<T>(p: T -> bool, q: T -> bool, both: T -> bool, s: seq<T>)
    requires forall x :: both(x) == (p(x) && q(x))
    ensures Filter(q, Filter(p, s)) == Filter(both, s)
  {
    if s != [] {
      FilterFilter(p, q, both, s[1..]);
      var rest := Filter(p, s[1..]);
      if p(s[0]) {
        assert Filter(p, s) == [s[0]] + rest;
        assert ([s[0]] + rest)[1..] == rest;
        assert Filter(q, [s[0]] + rest) == (if q(s[0]) then [s[0]] else []) + Filter(q, rest);
      } else {
        assert Filter(p, s) == rest;
      }
    }
  }

  /** Filters by tests that agree everywhere keep the same elements. */
  lemma {:induction false} FilterSameTest<T>(p: T -> bool, q: T -> bool, s: seq<T>)
    requires forall x :: p(x) == q(x)
    ensures Filter(p, s) == Filter(q, s)
  {
    if s != [] {
      FilterSameTest(p, q, s[1..]);
    }
  }

  /** `a` is `b` with some elements removed and the order of the rest kept. */
  predicate IsSubsequence<T(==)>(a: seq<T>, b: seq<T>)
    decreases |b|
  {
    a == [] ||
    (b != [] && ((a[0] == b[0] && IsSubsequence(a[1..], b[1..])) || IsSubsequence(a, b[1..])))
  }

  lemma {:induction false} SubsequenceRefl<T>(a: seq<T>)
    ensures IsSubsequence(a, a)
    decreases |a|
  {
    if a != [] { SubsequenceRefl(a[1..]); }
  }

  lemma {:induction false} SubsequenceTrans<T>(a: seq<T>, b: seq<T>, c: seq<T>)
    requires IsSubsequence(a, b) && IsSubsequence(b, c)
    ensures IsSubsequence(a, c)
    decreases |c|
  {
    if a != [] {
      assert b != [] && c != [];
      if b[0] == c[0] && IsSubsequence(b[1..], c[1..]) {
        if a[0] == b[0] && IsSubsequence(a[1..], b[1..]) {
          SubsequenceTrans(a[1..], b[1..], c[1..]);
        } else {
          SubsequenceTrans(a, b[1..], c[1..]);
        }
      } else {
        SubsequenceTrans(a, b, c[1..]);
      }
    }
  }

  lemma {:induction false} FilterIsSubsequence<T>(p: T -> bool, s: seq<T>)
    ensures IsSubsequence(Filter(p, s), s)
  {
    if s != [] {
      FilterIsSubsequence(p, s[1..]);
      var rest := Filter(p, s[1..]);
      if p(s[0]) {
        assert Filter(p, s) == [s[0]] + rest;
        assert ([s[0]] + rest)[1..] == rest;
      } else {
        assert Filter(p, s) == rest;
      }
    }
  }

  /** `s.reduce((sum, x) => sum + f(x), 0)`. */
  function Sum<T>(f: T -> int, s: seq<T>): int
  {
    if s == [] then 0 else f(s[0]) + Sum(f, s[1..])
  }

  lemma {:induction false} SumNonNegative<T>(f: T -> int, s: seq<T>)
    requires forall i :: 0 <= i < |s| ==> f(s[i]) >= 0
    ensures Sum(f, s) >= 0
  {
    if s != [] { SumNonNegative(f, s[1..]); }
  }

  lemma {:induction false} SumAppend<T>(f: T -> int, a: seq<T>, b: seq<T>)
    ensures Sum(f, a + b) == Sum(f, a) + Sum(f, b)
  {
    if a != [] {
      assert (a + b)[1..] == a[1..] + b;
      SumAppend(f, a[1..], b);
    } else {
      assert a + b == b;
    }
  }

  lemma {:induction false} SumRemove<T>(f: T -> int, s: seq<T>, k: nat)
    requires k < |s|
    ensures Sum(f, s) == f(s[k]) + Sum(f, s[..k] + s[k + 1..])
  {
    var head, rest := s[..k], s[k + 1..];
    var tail := [s[k]] + rest;
    assert s == head + tail;
    assert tail[1..] == rest;
    assert Sum(f, tail) == f(s[k]) + Sum(f, rest);
    SumAppend(f, head, tail);
    SumAppend(f, head, rest);
  }

  /** A sum does not depend on the order of its terms. */
  lemma {:induction false} SumPermutation<T>(f: T -> int, a: seq<T>, b: seq<T>)
    requires multiset(a) == multiset(b)
    ensures Sum(f, a) == Sum(f, b)
    decreases |a|
  {
    if a == [] {
      assert |multiset(b)| == 0;
    } else {
      assert a[0] in multiset(b);
      var k :| 0 <= k < |b| && b[k] == a[0];
      var rest := b[..k] + b[k + 1..];
      assert b == b[..k] + [b[k]] + b[k + 1..];
      assert multiset(rest) == multiset(b) - multiset{b[k]};
      assert a == [a[0]] + a[1..];
      SumPermutation(f, a[1..], rest);
      SumRemove(f, b, k);
    }
  }

  /** `s.slice(0, n)` for n >= 0. */
  function Take<T>(s: seq<T>, n: nat): (r: seq<T>)
    ensures |r| <= n && |r| <= |s|
    ensures |s| >= n ==> |r| == n
    ensures forall i :: 0 <= i < |r| ==> r[i] == s[i]
  {
    if |s| <= n then s else s[..n]
  }

  /** `s.reverse()`. */
  function Reverse<T>(s: seq<T>): (r: seq<T>)
    ensures |r| == |s|
    ensures forall i :: 0 <= i < |s| ==> r[i] == s[|s| - 1 - i]
  {
    if s == [] then [] else Reverse(s[1..]) + [s[0]]
  }

  predicate SortedDesc<T>(key: T -> int, s: seq<T>)
  {
    forall i, j :: 0 <= i < j < |s| ==> key(s[i]) >= key(s[j])
  }

  /** Filtering a sorted sequence leaves it sorted. */
  lemma {:induction false} FilterKeepsSortedDesc<T>(key: T -> int, p: T -> bool, s: seq<T>)
    requires SortedDesc(key, s)
    ensures SortedDesc(key, Filter(p, s))
  {
    if s != [] {
      var rest := Filter(p, s[1..]);
      FilterKeepsSortedDesc(key, p, s[1..]);
      forall k | 0 <= k < |rest| ensures key(rest[k]) <= key(s[0]) {
        var j :| 0 <= j < |s[1..]| && s[1..][j] == rest[k];
        assert s[1 + j] == rest[k];
      }
    }
  }

  /** The first `n` elements of a sorted sequence are its `n` largest: an
      element left out is no larger than any element taken. */
  lemma TakeOfSortedIsTop<T>(key: T -> int, s: seq<T>, n: nat)
    requires SortedDesc(key, s)
    ensures SortedDesc(key, Take(s, n))
    ensures multiset(Take(s, n)) <= multiset(s)
    ensures forall x, i :: multiset(s)[x] > multiset(Take(s, n))[x] && 0 <= i < |Take(s, n)|
                        ==> key(x) <= key(Take(s, n)[i])
  {
    var top := Take(s, n);
    var rest := s[|top|..];
    assert s == top + rest;
    assert multiset(s) == multiset(top) + multiset(rest);
    forall x, i | multiset(s)[x] > multiset(top)[x] && 0 <= i < |top|
      ensures key(x) <= key(top[i])
    {
      assert x in multiset(rest);
      var k :| 0 <= k < |rest| && rest[k] == x;
      assert s[|top| + k] == x && s[i] == top[i];
    }
  }

  function Insert<T>(key: T -> int, x: T, s: seq<T>): (r: seq<T>)
    requires SortedDesc(key, s)
    ensures SortedDesc(key, r)
    ensures multiset(r) == multiset(s) + multiset{x}
    ensures |r| == |s| + 1
  {
    if s == [] then [x]
    else if key(x) >= key(s[0]) then [x] + s
    else
      var rest := Insert(key, x, s[1..]);
      assert s == [s[0]] + s[1..];
      InsertBelowHead(key, x, s, rest);
      [s[0]] + rest
  }

  /** The tail, with `x` inserted, stays below a head that is above `x`. */
  lemma InsertBelowHead<T>(key: T -> int, x: T, s: seq<T>, rest: seq<T>)
    requires SortedDesc(key, s) && s != [] && key(x) < key(s[0])
    requires SortedDesc(key, rest) && multiset(rest) == multiset(s[1..]) + multiset{x}
    ensures SortedDesc(key, [s[0]] + rest)
  {
    forall k | 0 <= k < |rest| ensures key(rest[k]) <= key(s[0]) {
      assert rest[k] in multiset(rest);
      if rest[k] != x {
        assert rest[k] in multiset(s[1..]);
        var j :| 0 <= j < |s[1..]| && s[1..][j] == rest[k];
        assert s[j + 1] == rest[k];
      }
    }
    var r := [s[0]] + rest;
    forall i, j | 0 <= i < j < |r| ensures key(r[i]) >= key(r[j]) {
      assert r[j] == rest[j - 1];
      if i > 0 {
        assert r[i] == rest[i - 1];
      }
    }
  }

  /** A descending sort by `key`: sorted, and a permutation of its input. */
  function SortDesc<T>(key: T -> int, s: seq<T>): (r: seq<T>)
    ensures SortedDesc(key, r)
    ensures multiset(r) == multiset(s)
    ensures |r| == |s|
  {
    if s == [] then []
    else
      assert s == [s[0]] + s[1..];
      Insert(key, s[0], SortDesc(key, s[1..]))
  }
}
