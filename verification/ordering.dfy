/**
 * Sequence operations behind the stores' listings: Python's list
 * comprehension filter, `sorted(..., key=..., reverse=True)` (a STABLE sort
 * in descending key order) and the slice `[:limit]`.
 */
module Ordering {

  /** Elements of `s` satisfying `p`, in their original order (`[x for x in s if p(x)]`). */
  function Select<T>(s: seq<T>, p: T -> bool): (r: seq<T>)
    ensures |r| <= |s|
    ensures forall x :: x in r ==> x in s && p(x)
    ensures forall x :: x in s && p(x) ==> x in r
  {
    if |s| == 0 then [] else (if p(s[0]) then [s[0]] else []) + Select(s[1..], p)
  }

  /** `a` is obtained from `b` by deleting elements, keeping the order of the rest. */
  predicate IsSubsequence<T(==)>(a: seq<T>, b: seq<T>)
    decreases |b|
  {
    if |a| == 0 then true
    else if |b| == 0 then false
    else if a[0] == b[0] then IsSubsequence(a[1..], b[1..])
    else IsSubsequence(a, b[1..])
  }

  lemma {:induction false} SubsequenceDropHead<T>(a: seq<T>, b: seq<T>)
    requires |b| > 0 && IsSubsequence(a, b[1..])
    ensures IsSubsequence(a, b)
    decreases |a| + |b|
  {
    if |a| > 0 && a[0] == b[0] {
      SubsequenceTail(a, b[1..]);
    }
  }

  lemma {:induction false} SubsequenceTail<T>(a: seq<T>, b: seq<T>)
    requires |a| > 0 && IsSubsequence(a, b)
    ensures IsSubsequence(a[1..], b)
    decreases |a| + |b|
  {
    if a[0] == b[0] {
      if |b| > 0 {
        SubsequenceDropHead(a[1..], b);
      }
    } else {
      SubsequenceTail(a, b[1..]);
      SubsequenceDropHead(a[1..], b);
    }
  }

  /** A filter result keeps the relative order of the elements it keeps. */
  lemma {:induction false} SelectIsSubsequence<T>(s: seq<T>, p: T -> bool)
    ensures IsSubsequence(Select(s, p), s)
    decreases |s|
  {
    if |s| > 0 {
      var rest := Select(s[1..], p);
      SelectIsSubsequence(s[1..], p);
      if p(s[0]) {
        assert Select(s, p)[1..] == rest;
      } else {
        assert Select(s, p) == rest;
        SubsequenceDropHead(rest, s);
      }
    }
  }

  /** The conjunction of two predicates. */
  function Both<T>(p: T -> bool, q: T -> bool): T -> bool {
    x => p(x) && q(x)
  }

  /** Filtering twice is filtering once by the conjunction. */
  lemma {:induction false} SelectSelect<T>(s: seq<T>, p: T -> bool, q: T -> bool)
    ensures Select(Select(s, p), q) == Select(s, Both(p, q))
    decreases |s|
  {
    var pq := Both(p, q);
    if |s| > 0 {
      var r := Select(s, p);
      SelectSelect(s[1..], p, q);
      assert Select(s, pq) == (if pq(s[0]) then [s[0]] else []) + Select(s[1..], pq);
      if p(s[0]) {
        assert r == [s[0]] + Select(s[1..], p);
        assert r[1..] == Select(s[1..], p);
      } else {
        assert r == Select(s[1..], p);
      }
    }
  }

  /** Filters by pointwise-equal predicates agree. */
  lemma {:induction false} SelectExt<T>(s: seq<T>, p: T -> bool, q: T -> bool)
    requires forall x :: p(x) == q(x)
    ensures Select(s, p) == Select(s, q)
    decreases |s|
  {
    if |s| > 0 {
      SelectExt(s[1..], p, q);
    }
  }

  lemma {:induction false} SelectAll<T>(s: seq<T>, p: T -> bool)
    requires forall x :: x in s ==> p(x)
    ensures Select(s, p) == s
    decreases |s|
  {
    if |s| > 0 {
      SelectAll(s[1..], p);
    }
  }

  /** Non-increasing by `key`, as `sorted(..., reverse=True)` leaves it. */
  predicate SortedDesc<T>(s: seq<T>, key: T -> int) {
    forall i, j :: 0 <= i < j < |s| ==> key(s[i]) >= key(s[j])
  }

  /** The elements of `s` whose key is exactly `k`, in order. */
  function WithKey<T>(s: seq<T>, key: T -> int, k: int): seq<T>
    decreases |s|
  {
    if |s| == 0 then [] else KeyHead(s[0], key, k) + WithKey(s[1..], key, k)
  }

  /** `[x]` when `x` carries key `k`, else nothing. */
  function KeyHead<T>(x: T, key: T -> int, k: int): seq<T> {
    if key(x) == k then [x] else []
  }

  /**
   * Stability: for every key value, the elements carrying it appear in the
   * output in the same order as in the input.
   */
  ghost predicate StablyReordered<T>(r: seq<T>, s: seq<T>, key: T -> int) {
    forall k :: WithKey(r, key, k) == WithKey(s, key, k)
  }

  /** Inserts `x` into a descending `t` after every element with a strictly greater key. */
  function Insert<T>(x: T, t: seq<T>, key: T -> int): (r: seq<T>)
    requires SortedDesc(t, key)
    ensures SortedDesc(r, key)
    ensures multiset(r) == multiset(t) + multiset{x}
    ensures |r| == |t| + 1
    ensures r[0] == x || (|t| > 0 && r[0] == t[0])
    decreases |t|
  {
    if |t| == 0 || key(t[0]) <= key(x) then
      SortedCons(x, t, key);
      [x] + t
    else
      var rest := Insert(x, t[1..], key);
      SortedCons(t[0], rest, key);
      assert t == [t[0]] + t[1..];
      [t[0]] + rest
  }

  lemma SortedCons<T>(a: T, r: seq<T>, key: T -> int)
    requires SortedDesc(r, key)
    requires |r| > 0 ==> key(a) >= key(r[0])
    ensures SortedDesc([a] + r, key)
  {
    var s := [a] + r;
    forall i, j | 0 <= i < j < |s| ensures key(s[i]) >= key(s[j]) {
      if i == 0 {
        assert s[j] == r[j - 1];
      } else {
        assert s[i] == r[i - 1] && s[j] == r[j - 1];
      }
    }
  }

  lemma SortedTail<T>(t: seq<T>, key: T -> int)
    requires SortedDesc(t, key) && |t| > 0
    ensures SortedDesc(t[1..], key)
  {
  }

  /** A stable descending sort by `key` (insertion sort from the back). */
  function SortDesc<T>(s: seq<T>, key: T -> int): (r: seq<T>)
    ensures SortedDesc(r, key)
    ensures multiset(r) == multiset(s)
    ensures |r| == |s|
    decreases |s|
  {
    if |s| == 0 then [] else
      assert s == [s[0]] + s[1..];
      Insert(s[0], SortDesc(s[1..], key), key)
  }

  lemma SortDescMembers<T>(s: seq<T>, key: T -> int)
    ensures forall x :: x in SortDesc(s, key) <==> x in s
  {
    var r := SortDesc(s, key);
    forall x ensures x in r <==> x in s {
      assert x in r <==> x in multiset(r);
      assert x in s <==> x in multiset(s);
    }
  }

  lemma {:induction false} WithKeyInsert<T>(x: T, t: seq<T>, key: T -> int, k: int)
    requires SortedDesc(t, key)
    ensures WithKey(Insert(x, t, key), key, k) == KeyHead(x, key, k) + WithKey(t, key, k)
    decreases |t|
  {
    var r := Insert(x, t, key);
    if |t| == 0 || key(t[0]) <= key(x) {
      assert r == [x] + t;
      assert r[0] == x && r[1..] == t;
    } else {
      SortedTail(t, key);
      var rest := Insert(x, t[1..], key);
      assert r == [t[0]] + rest;
      assert r[0] == t[0] && r[1..] == rest;
      WithKeyInsert(x, t[1..], key, k);
      // t[0]'s key is above x's, so at most one of them carries key k
      assert KeyHead(x, key, k) == [] || KeyHead(t[0], key, k) == [];
      calc {
        WithKey(r, key, k);
        KeyHead(t[0], key, k) + WithKey(Insert(x, t[1..], key), key, k);
        KeyHead(t[0], key, k) + (KeyHead(x, key, k) + WithKey(t[1..], key, k));
        KeyHead(x, key, k) + (KeyHead(t[0], key, k) + WithKey(t[1..], key, k));
        KeyHead(x, key, k) + WithKey(t, key, k);
      }
    }
  }

  /** `SortDesc` never swaps two elements with equal keys. */
  lemma {:induction false} SortDescStable<T>(s: seq<T>, key: T -> int)
    ensures StablyReordered(SortDesc(s, key), s, key)
    decreases |s|
  {
    if |s| > 0 {
      SortDescStable(s[1..], key);
      forall k
        ensures WithKey(SortDesc(s, key), key, k) == WithKey(s, key, k)
      {
        WithKeyInsert(s[0], SortDesc(s[1..], key), key, k);
      }
    }
  }

  /** The elements with key `k` of a concatenation are those of each part, in turn. */
  lemma {:induction false} WithKeyAppend<T>(a: seq<T>, b: seq<T>, key: T -> int, k: int)
    ensures WithKey(a + b, key, k) == WithKey(a, key, k) + WithKey(b, key, k)
    decreases |a|
  {
    if |a| == 0 {
      assert a + b == b;
    } else {
      assert (a + b)[0] == a[0];
      assert (a + b)[1..] == a[1..] + b;
      WithKeyAppend(a[1..], b, key, k);
      calc {
        WithKey(a + b, key, k);
        KeyHead(a[0], key, k) + WithKey(a[1..] + b, key, k);
        KeyHead(a[0], key, k) + (WithKey(a[1..], key, k) + WithKey(b, key, k));
        (KeyHead(a[0], key, k) + WithKey(a[1..], key, k)) + WithKey(b, key, k);
      }
    }
  }

  /**
   * A prefix keeps, for every key value, the earliest elements carrying it:
   * a cut through a run of equal keys drops the later ones.
   */
  lemma PrefixKeepsEarliest<T>(s: seq<T>, n: nat, key: T -> int)
    requires n <= |s|
    ensures forall k :: WithKey(s[..n], key, k) <= WithKey(s, key, k)
  {
    forall k ensures WithKey(s[..n], key, k) <= WithKey(s, key, k) {
      assert s == s[..n] + s[n..];
      WithKeyAppend(s[..n], s[n..], key, k);
    }
  }

  /** Python's `s[:limit]`: a negative `limit` counts from the end. */
  function Take<T>(s: seq<T>, limit: int): (r: seq<T>)
    ensures limit >= 0 ==> |r| == (if limit < |s| then limit else |s|)
    ensures limit < 0 ==> |r| == (if |s| + limit > 0 then |s| + limit else 0)
    ensures r <= s
  {
    if limit >= 0 then (if limit < |s| then s[..limit] else s)
    else if |s| + limit > 0 then s[..|s| + limit]
    else []
  }

  lemma TakePreservesOrder<T>(s: seq<T>, limit: int, key: T -> int)
    requires SortedDesc(s, key)
    ensures SortedDesc(Take(s, limit), key)
  {
  }
}
