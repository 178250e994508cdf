/**
 * Sequence operations shared by the detectors: truncation (`xs[:n]`), the stable descending
 * sort that Python's `list.sort(key=..., reverse=True)` and `sorted(..., reverse=True)` perform,
 * and `Collect`, the filter-and-build pattern of a loop that appends at most one record per
 * input element.
 */
module Seqs {
  import opened Wrappers

  /** Python's `s[:n]`. */
  function Take<T>(s: seq<T>, n: nat): (r: seq<T>)
    ensures |r| <= n && |r| <= |s|
    ensures |s| <= n ==> |r| == |s|
    ensures |s| > n ==> |r| == n
    ensures r == s[..|r|]
  {
    if |s| <= n then s else s[..n]
  }

  /** Python's `s[n:]`, the part that `Take` drops. */
  function Drop<T>(s: seq<T>, n: nat): (r: seq<T>)
    ensures Take(s, n) + r == s
  {
    if |s| <= n then [] else s[n..]
  }

  /** Every element's key is at least the key of every later element. */
  ghost predicate SortedDesc<T>(s: seq<T>, key: T -> real) {
    forall i, j :: 0 <= i < j < |s| ==> key(s[i]) >= key(s[j])
  }

  /** The elements of `s` whose key is exactly `k`, in their order in `s`. */
  function WithKey<T>(s: seq<T>, key: T -> real, k: real): seq<T> {
    if s == [] then [] else (if key(s[0]) == k then [s[0]] else []) + WithKey(s[1..], key, k)
  }

  /**
   * Inserts `x` in front of the first element whose key is smaller than its own, so that `x`
   * stays ahead of the elements with an equal key.
   */
  function Insert<T>(x: T, s: seq<T>, key: T -> real): (r: seq<T>)
    ensures |r| == |s| + 1
    ensures multiset(r) == multiset(s) + multiset{x}
  {
    if s == [] || key(x) >= key(s[0]) then [x] + s
    else
      assert s == [s[0]] + s[1..];
      [s[0]] + Insert(x, s[1..], key)
  }

  /**
   * Stable sort by `key`, largest first: the element that comes first in `s` stays first
   * among elements with equal keys.
   */
  function SortDesc<T>(s: seq<T>, key: T -> real): (r: seq<T>)
    ensures |r| == |s|
    ensures multiset(r) == multiset(s)
  {
    if s == [] then []
    else
      assert s == [s[0]] + s[1..];
      Insert(s[0], SortDesc(s[1..], key), key)
  }

  /** Inserting an element no larger than `b` among elements no larger than `b`. */
  lemma {:induction false} InsertBounded<T>(x: T, s: seq<T>, key: T -> real, b: real)
    requires key(x) <= b
    requires forall i :: 0 <= i < |s| ==> key(s[i]) <= b
    ensures forall i :: 0 <= i < |Insert(x, s, key)| ==> key(Insert(x, s, key)[i]) <= b
  {
    if s != [] && key(x) < key(s[0]) {
      InsertBounded(x, s[1..], key, b);
      assert Insert(x, s, key) == [s[0]] + Insert(x, s[1..], key);
    }
  }

  lemma {:induction false} InsertSorted<T>(x: T, s: seq<T>, key: T -> real)
    requires SortedDesc(s, key)
    ensures SortedDesc(Insert(x, s, key), key)
  {
    if s != [] && key(x) < key(s[0]) {
      var tail := s[1..];
      assert SortedDesc(tail, key) by {
        forall i, j | 0 <= i < j < |tail| ensures key(tail[i]) >= key(tail[j]) {
          assert tail[i] == s[i + 1] && tail[j] == s[j + 1];
        }
      }
      forall i | 0 <= i < |tail| ensures key(tail[i]) <= key(s[0]) {
        assert tail[i] == s[i + 1];
      }
      var t := Insert(x, tail, key);
      InsertSorted(x, tail, key);
      InsertBounded(x, tail, key, key(s[0]));
      var r := [s[0]] + t;
      assert Insert(x, s, key) == r;
      forall i, j | 0 <= i < j < |r| ensures key(r[i]) >= key(r[j]) {
        if i != 0 {
          assert r[i] == t[i - 1];
        }
        assert r[j] == t[j - 1];
      }
    } else {
      var r := [x] + s;
      assert Insert(x, s, key) == r;
      forall i, j | 0 <= i < j < |r| ensures key(r[i]) >= key(r[j]) {
        assert r[j] == s[j - 1];
        if i != 0 {
          assert r[i] == s[i - 1];
        } else if s != [] {
          assert key(s[0]) >= key(s[j - 1]);
        }
      }
    }
  }

  /** `Insert` stops in front of an element whose key is not larger. */
  lemma InsertFront<T>(x: T, s: seq<T>, key: T -> real)
    requires s == [] || key(x) >= key(s[0])
    ensures Insert(x, s, key) == [x] + s
  {
  }

  /** `Insert` passes an element whose key is larger. */
  lemma InsertPast<T>(x: T, y: T, s: seq<T>, key: T -> real)
    requires key(x) < key(y)
    ensures Insert(x, [y] + s, key) == [y] + Insert(x, s, key)
  {
    assert ([y] + s)[1..] == s;
  }

  /** One step of the sort: the first element is inserted into the sorted rest. */
  lemma SortDescCons<T>(x: T, s: seq<T>, key: T -> real)
    ensures SortDesc([x] + s, key) == Insert(x, SortDesc(s, key), key)
  {
    assert ([x] + s)[1..] == s;
  }

  /** The result of the stable sort is sorted, largest key first. */
  lemma {:induction false} SortDescSorted<T>(s: seq<T>, key: T -> real)
    ensures SortedDesc(SortDesc(s, key), key)
  {
    if s != [] {
      SortDescSorted(s[1..], key);
      InsertSorted(s[0], SortDesc(s[1..], key), key);
    }
  }

  lemma {:induction false} InsertKeepsTies<T>(x: T, s: seq<T>, key: T -> real, k: real)
    ensures WithKey(Insert(x, s, key), key, k) == WithKey([x] + s, key, k)
  {
    if s == [] || key(x) >= key(s[0]) {
    } else {
      InsertKeepsTies(x, s[1..], key, k);
      assert ([s[0]] + Insert(x, s[1..], key))[1..] == Insert(x, s[1..], key);
      assert ([x] + s[1..])[1..] == s[1..];
      assert ([x] + s)[1..] == s;
      assert ([s[0]] + ([x] + s[1..]))[1..] == [x] + s[1..];
    }
  }

  /**
   * Stability: the elements that share a key keep their original relative order, and none is
   * gained or lost.
   */
  lemma {:induction false} SortDescStable<T>(s: seq<T>, key: T -> real, k: real)
    ensures WithKey(SortDesc(s, key), key, k) == WithKey(s, key, k)
  {
    if s != [] {
      var t := SortDesc(s[1..], key);
      InsertKeepsTies(s[0], t, key, k);
      SortDescStable(s[1..], key, k);
      assert ([s[0]] + t)[1..] == t;
    }
  }

  /** A prefix of a sorted sequence is sorted. */
  lemma TakeSorted<T>(s: seq<T>, n: nat, key: T -> real)
    requires SortedDesc(s, key)
    ensures SortedDesc(Take(s, n), key)
  {
  }

  /**
   * Keeping the first `n` of a sorted sequence keeps the `n` largest: everything kept has a
   * key at least as large as everything dropped, and together they are the whole input.
   */
  lemma TopIsLargest<T>(s: seq<T>, n: nat, key: T -> real)
    ensures multiset(Take(SortDesc(s, key), n)) + multiset(Drop(SortDesc(s, key), n)) == multiset(s)
    ensures forall x, y :: x in Take(SortDesc(s, key), n) && y in Drop(SortDesc(s, key), n) ==> key(x) >= key(y)
  {
    var r := SortDesc(s, key);
    SortDescSorted(s, key);
    assert Take(r, n) + Drop(r, n) == r;
    forall x, y | x in Take(r, n) && y in Drop(r, n) ensures key(x) >= key(y) {
      var i :| 0 <= i < |Take(r, n)| && Take(r, n)[i] == x;
      var j :| 0 <= j < |Drop(r, n)| && Drop(r, n)[j] == y;
      assert r[i] == x && r[|Take(r, n)| + j] == y;
    }
  }

  /** Truncating keeps, among the elements of each key, a prefix of them in their order. */
  lemma {:induction false} WithKeyTake<T>(s: seq<T>, n: nat, key: T -> real, k: real)
    ensures WithKey(Take(s, n), key, k) <= WithKey(s, key, k)
  {
    if s != [] && n > 0 && |s| > n {
      WithKeyTake(s[1..], n - 1, key, k);
      assert Take(s, n)[1..] == Take(s[1..], n - 1);
      assert Take(s, n)[0] == s[0];
    }
  }

  /**
   * "Sort by key, highest first, keep the first `n`": at most `n` elements, still sorted, all
   * taken from the input, the whole input when it is short enough, and among equal keys a
   * prefix of the input's elements in their input order.
   */
  lemma TopN<T>(s: seq<T>, n: nat, key: T -> real)
    ensures |Take(SortDesc(s, key), n)| <= n
    ensures SortedDesc(Take(SortDesc(s, key), n), key)
    ensures forall x :: x in Take(SortDesc(s, key), n) ==> x in s
    ensures |s| <= n ==> multiset(Take(SortDesc(s, key), n)) == multiset(s)
    ensures forall k :: WithKey(Take(SortDesc(s, key), n), key, k) <= WithKey(s, key, k)
  {
    var r := SortDesc(s, key);
    SortDescSorted(s, key);
    TakeSorted(r, n, key);
    forall x | x in Take(r, n) ensures x in s {
      assert x in multiset(r);
    }
    if |s| <= n {
      assert Take(r, n) == r;
    }
    forall k ensures WithKey(Take(r, n), key, k) <= WithKey(s, key, k) {
      WithKeyTake(r, n, key, k);
      SortDescStable(s, key, k);
    }
  }

  /** The one-or-none contribution of one element. */
  function Emit<U>(o: Option<U>): seq<U> {
    match o
    case Some(u) => [u]
    case None => []
  }

  /**
   * The records `f` builds from the elements of `s`, in the order of `s`: the list that a loop
   * `for x in s: if ...: acc.append(...)` accumulates.
   */
  function Collect<T, U>(s: seq<T>, f: T -> Option<U>): (r: seq<U>)
    ensures |r| <= |s|
  {
    if s == [] then [] else Collect(s[..|s| - 1], f) + Emit(f(s[|s| - 1]))
  }

  /** The loop step: one more element adds its contribution at the end. */
  lemma CollectSnoc<T, U>(s: seq<T>, x: T, f: T -> Option<U>)
    ensures Collect(s + [x], f) == Collect(s, f) + Emit(f(x))
  {
    assert (s + [x])[..|s|] == s;
  }

  lemma {:induction false} CollectAppend<T, U>(a: seq<T>, b: seq<T>, f: T -> Option<U>)
    ensures Collect(a + b, f) == Collect(a, f) + Collect(b, f)
  {
    if b == [] {
      assert a + b == a;
    } else {
      var b', x := b[..|b| - 1], b[|b| - 1];
      assert b == b' + [x];
      assert a + b == (a + b') + [x];
      calc {
        Collect(a + b, f);
        { CollectSnoc(a + b', x, f); }
        Collect(a + b', f) + Emit(f(x));
        { CollectAppend(a, b', f); }
        (Collect(a, f) + Collect(b', f)) + Emit(f(x));
        Collect(a, f) + (Collect(b', f) + Emit(f(x)));
        { CollectSnoc(b', x, f); }
        Collect(a, f) + Collect(b, f);
      }
    }
  }

  /** When `f` never drops an element, the collected list is `f` applied element by element. */
  lemma {:induction false} CollectTotal<T, U>(s: seq<T>, f: T -> Option<U>)
    requires forall x :: f(x).Some?
    ensures |Collect(s, f)| == |s|
    ensures forall i :: 0 <= i < |s| ==> Collect(s, f)[i] == f(s[i]).value
  {
    if s != [] {
      var p := s[..|s| - 1];
      CollectTotal(p, f);
      assert Collect(s, f) == Collect(p, f) + [f(s[|s| - 1]).value];
      forall i | 0 <= i < |p| ensures Collect(s, f)[i] == f(s[i]).value {
        assert s[i] == p[i];
      }
    }
  }

  /** Exactly the values `f` produces for some element of `s` are in the collected list. */
  lemma {:induction false} CollectMember<T, U>(s: seq<T>, f: T -> Option<U>, u: U)
    ensures u in Collect(s, f) <==> exists i :: 0 <= i < |s| && f(s[i]) == Some(u)
  {
    if s != [] {
      var p := s[..|s| - 1];
      CollectMember(p, f, u);
      if u in Collect(s, f) {
        if u in Collect(p, f) {
          var i :| 0 <= i < |p| && f(p[i]) == Some(u);
          assert s[i] == p[i];
        } else {
          assert f(s[|s| - 1]) == Some(u);
        }
      }
      if exists i :: 0 <= i < |s| && f(s[i]) == Some(u) {
        var i :| 0 <= i < |s| && f(s[i]) == Some(u);
        if i < |p| {
          assert p[i] == s[i];
        }
      }
    }
  }

  /**
   * A filter-map whose results' keys follow its inputs' keys keeps a sorted input sorted.
   */
  lemma {:induction false} CollectSorted<T, U>(s: seq<T>, f: T -> Option<U>, inKey: T -> real, outKey: U -> real)
    requires SortedDesc(s, inKey)
    requires forall x, y :: f(x).Some? && f(y).Some? && inKey(x) >= inKey(y) ==> outKey(f(x).value) >= outKey(f(y).value)
    ensures SortedDesc(Collect(s, f), outKey)
  {
    if s != [] {
      var p, x := s[..|s| - 1], s[|s| - 1];
      assert SortedDesc(p, inKey);
      CollectSorted(p, f, inKey, outKey);
      var prev := Collect(p, f);
      if f(x).Some? {
        var o := f(x).value;
        forall q | q in prev ensures outKey(q) >= outKey(o) {
          CollectMember(p, f, q);
          var i :| 0 <= i < |p| && f(p[i]) == Some(q);
          assert s[i] == p[i];
        }
        var r := Collect(s, f);
        assert r == prev + [o];
        forall a, b | 0 <= a < b < |r| ensures outKey(r[a]) >= outKey(r[b]) {
          if b == |r| - 1 {
            assert r[a] in prev;
          } else {
            assert r[a] == prev[a] && r[b] == prev[b];
          }
        }
      }
    }
  }
}
