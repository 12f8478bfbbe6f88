/**
 * A stable sort by an integer key, the behaviour `Array.prototype.sort`
 * guarantees (ECMAScript 2023, section 23.1.3.30) for a comparator of the
 * form `(a, b) => key(a) - key(b)`: the result is ordered by the key and
 * elements with equal keys keep their relative order. `Sort` is the
 * reference definition (insertion from the left), `SortInPlace` the
 * in-place method, and `SortUnique` shows that every stable sort returns
 * the same sequence, so the choice of algorithm does not matter.
 */
module StableSort {
  import opened Sequences

  /** The comparator such a sort calls: negative when `a` goes first. */
  function Compare<T>(a: T, b: T, key: T -> int): int
  {
    key(a) - key(b)
  }

  /** `s` is non-decreasing in `key`. */
  predicate SortedBy<T>(s: seq<T>, key: T -> int)
  {
    forall i, j :: 0 <= i < j < |s| ==> key(s[i]) <= key(s[j])
  }

  /** Accepts exactly the elements whose key is `v`. */
  function HasKey<T>(key: T -> int, v: int): T -> bool
  {
    x => key(x) == v
  }

  /** For every key value, `out` lists the elements with that key in the same order as `input`. */
  ghost predicate KeepsOrderOfEqualKeys<T>(out: seq<T>, input: seq<T>, key: T -> int)
  {
    forall v :: Filter(out, HasKey(key, v)) == Filter(input, HasKey(key, v))
  }

  /** Inserts `x` after every element whose key is not greater than its own. */
  function Insert<T>(x: T, s: seq<T>, key: T -> int): seq<T>
  {
    if s == [] then [x]
    else if Compare(x, s[0], key) < 0 then [x] + s
    else [s[0]] + Insert(x, s[1..], key)
  }

  /** Insertion sort, taking the elements from the left. */
  function Sort<T>(s: seq<T>, key: T -> int): seq<T>
  {
    if s == [] then [] else Insert(s[|s| - 1], Sort(s[..|s| - 1], key), key)
  }

  /** Every element of `Insert(x, s)` has a key at least `b` when `x` and all of `s` do. */
  lemma {:induction false} InsertLowerBound<T>(x: T, s: seq<T>, key: T -> int, b: int)
    requires key(x) >= b
    requires forall k :: 0 <= k < |s| ==> key(s[k]) >= b
    ensures forall k :: 0 <= k < |Insert(x, s, key)| ==> key(Insert(x, s, key)[k]) >= b
  {
    if s != [] && Compare(x, s[0], key) >= 0 {
      InsertLowerBound(x, s[1..], key, b);
    }
  }

  /** Insertion adds exactly one element and loses none. */
  lemma {:induction false} InsertCount<T>(x: T, s: seq<T>, key: T -> int)
    ensures multiset(Insert(x, s, key)) == multiset(s) + multiset{x}
    ensures |Insert(x, s, key)| == |s| + 1
  {
    if s == [] {
    } else if Compare(x, s[0], key) < 0 {
      assert multiset([x] + s) == multiset{x} + multiset(s);
    } else {
      InsertCount(x, s[1..], key);
      assert s == [s[0]] + s[1..];
      assert multiset(s) == multiset{s[0]} + multiset(s[1..]);
    }
  }

  /** A sorted sequence stays sorted behind a head whose key is no greater than any of its keys. */
  lemma SortedCons<T>(h: T, t: seq<T>, key: T -> int)
    requires SortedBy(t, key)
    requires forall k :: 0 <= k < |t| ==> key(h) <= key(t[k])
    ensures SortedBy([h] + t, key)
  {
    var r := [h] + t;
    forall i, j | 0 <= i < j < |r|
      ensures key(r[i]) <= key(r[j])
    {
      assert r[j] == t[j - 1];
      if i > 0 {
        assert r[i] == t[i - 1];
      }
    }
  }

  /** Insertion keeps a sequence sorted and adds exactly one element. */
  lemma {:induction false} InsertSorted<T>(x: T, s: seq<T>, key: T -> int)
    requires SortedBy(s, key)
    ensures SortedBy(Insert(x, s, key), key)
    ensures multiset(Insert(x, s, key)) == multiset(s) + multiset{x}
    ensures |Insert(x, s, key)| == |s| + 1
  {
    InsertCount(x, s, key);
    if s == [] {
    } else if Compare(x, s[0], key) < 0 {
      SortedCons(x, s, key);
    } else {
      InsertSorted(x, s[1..], key);
      InsertLowerBound(x, s[1..], key, key(s[0]));
      SortedCons(s[0], Insert(x, s[1..], key), key);
    }
  }

  /** The reference sort returns a sorted permutation of its input. */
  lemma {:induction false} SortSorted<T>(s: seq<T>, key: T -> int)
    ensures SortedBy(Sort(s, key), key)
    ensures multiset(Sort(s, key)) == multiset(s)
    ensures |Sort(s, key)| == |s|
  {
    if s != [] {
      var n := |s| - 1;
      SortSorted(s[..n], key);
      InsertSorted(s[n], Sort(s[..n], key), key);
      assert s == s[..n] + [s[n]];
    }
  }

  /** Inserting into a sorted sequence appends `x` to the elements that share its key. */
  lemma {:induction false} InsertKeepsOrder<T>(x: T, s: seq<T>, key: T -> int, v: int)
    requires SortedBy(s, key)
    ensures Filter(Insert(x, s, key), HasKey(key, v))
         == Filter(s, HasKey(key, v)) + Filter([x], HasKey(key, v))
  {
    var p := HasKey(key, v);
    if s == [] {
    } else if Compare(x, s[0], key) < 0 {
      if key(x) == v {
        assert Filter(s, p) == [] by {
          FilterKeepsAllOut(s, p, key, v);
        }
      }
      FilterAppend([x], s, p);
    } else {
      InsertKeepsOrder(x, s[1..], key, v);
      assert Insert(x, s, key) == [s[0]] + Insert(x, s[1..], key);
    }
  }

  /** When every element of a sorted `s` has a key above `v`, none of them has key `v`. */
  lemma FilterKeepsAllOut<T>(s: seq<T>, p: T -> bool, key: T -> int, v: int)
    requires p == HasKey(key, v)
    requires SortedBy(s, key) && s != [] && v < key(s[0])
    ensures Filter(s, p) == []
  {
    assert forall k :: 0 <= k < |s| ==> key(s[0]) <= key(s[k]);
    FilterKeepsNone(s, p);
  }

  /** The reference sort keeps the relative order of elements with equal keys. */
  lemma {:induction false} SortStable<T>(s: seq<T>, key: T -> int)
    ensures KeepsOrderOfEqualKeys(Sort(s, key), s, key)
  {
    if s != [] {
      var n := |s| - 1;
      SortStable(s[..n], key);
      SortSorted(s[..n], key);
      forall v ensures Filter(Sort(s, key), HasKey(key, v)) == Filter(s, HasKey(key, v)) {
        InsertKeepsOrder(s[n], Sort(s[..n], key), key, v);
        assert s == s[..n] + [s[n]];
        FilterAppend(s[..n], [s[n]], HasKey(key, v));
      }
    }
  }

  /** The first element of a non-empty sequence survives the filter on its own key. */
  lemma FirstKeyKept<T>(s: seq<T>, key: T -> int)
    requires s != []
    ensures Filter(s, HasKey(key, key(s[0]))) != []
  {
  }

  /**
   * Two sequences sorted by `key` that list the elements of each key in the
   * same order are equal: a stable sort has exactly one possible result.
   */
  lemma {:induction false} SortedStableEqual<T>(x: seq<T>, y: seq<T>, key: T -> int)
    requires SortedBy(x, key) && SortedBy(y, key)
    requires forall v :: Filter(x, HasKey(key, v)) == Filter(y, HasKey(key, v))
    ensures x == y
    decreases |x| + |y|
  {
    if x == [] && y == [] {
      return;
    }
    if x == [] {
      FirstKeyKept(y, key);
      assert false;
    }
    if y == [] {
      FirstKeyKept(x, key);
      assert false;
    }
    var vx, vy := key(x[0]), key(y[0]);
    FilterMembership(y, HasKey(key, vx), Filter(x, HasKey(key, vx))[0]);
    FilterMembership(x, HasKey(key, vy), Filter(y, HasKey(key, vy))[0]);
    assert vx == vy;
    var px := HasKey(key, vx);
    assert Filter(x, px) == [x[0]] + Filter(x[1..], px);
    assert Filter(y, px) == [y[0]] + Filter(y[1..], px);
    assert x[0] == Filter(x, px)[0] == Filter(y, px)[0] == y[0];
    forall v ensures Filter(x[1..], HasKey(key, v)) == Filter(y[1..], HasKey(key, v)) {
      var p := HasKey(key, v);
      assert Filter(x, p) == Filter(y, p);
      if v == vx {
        assert Filter(x, p) == [x[0]] + Filter(x[1..], p);
        assert Filter(y, p) == [y[0]] + Filter(y[1..], p);
        assert Filter(x[1..], p) == Filter(x, p)[1..];
        assert Filter(y[1..], p) == Filter(y, p)[1..];
      } else {
        assert !p(x[0]) && !p(y[0]);
        assert Filter(x, p) == Filter(x[1..], p);
        assert Filter(y, p) == Filter(y[1..], p);
      }
    }
    SortedStableEqual(x[1..], y[1..], key);
    assert x == [x[0]] + x[1..] && y == [y[0]] + y[1..];
  }

  /** Any sorted sequence that keeps the order of equal keys of `s` is `Sort(s)`. */
  lemma SortUnique<T>(s: seq<T>, out: seq<T>, key: T -> int)
    requires SortedBy(out, key)
    requires KeepsOrderOfEqualKeys(out, s, key)
    ensures out == Sort(s, key)
  {
    SortSorted(s, key);
    SortStable(s, key);
    SortedStableEqual(out, Sort(s, key), key);
  }

  /** The place where `x` lands in a sorted sequence: after the keys not above its own. */
  lemma {:induction false} InsertAt<T>(x: T, s: seq<T>, key: T -> int, j: nat)
    requires SortedBy(s, key) && j <= |s|
    requires j > 0 ==> key(s[j - 1]) <= key(x)
    requires forall m :: j <= m < |s| ==> key(s[m]) > key(x)
    ensures Insert(x, s, key) == s[..j] + [x] + s[j..]
  {
    if j > 0 {
      assert key(s[0]) <= key(s[j - 1]);
      InsertAt(x, s[1..], key, j - 1);
      assert s[..j] == [s[0]] + s[1..][..j - 1];
      assert s[j..] == s[1..][j - 1..];
    }
  }

  /** A prefix made of `s[..j]`, then `x`, then `s[j..]` shifted right by one, is that concatenation. */
  lemma ShiftedIsSplice<T>(b: seq<T>, s: seq<T>, x: T, j: nat)
    requires j <= |s| && |b| == |s| + 1 && b[j] == x
    requires forall m :: 0 <= m < j ==> b[m] == s[m]
    requires forall m :: j < m < |b| ==> b[m] == s[m - 1]
    ensures b == s[..j] + [x] + s[j..]
  {
    var c := s[..j] + [x] + s[j..];
    forall m | 0 <= m < |b|
      ensures b[m] == c[m]
    {
      if m < j {
        assert c[m] == s[m];
      } else if m > j {
        assert c[m] == s[m - 1];
      }
    }
  }

  /**
   * Moves `a[i]` left past the elements of the sorted prefix `a[..i]` whose
   * key is greater, then stores it in the gap.
   */
  method InsertInPlace<T>(a: array<T>, i: nat, key: T -> int)
    requires i < a.Length && SortedBy(a[..i], key)
    modifies a
    ensures a[..i + 1] == Insert(old(a[i]), old(a[..i]), key)
    ensures a[i + 1..] == old(a[i + 1..])
  {
    ghost var sorted := a[..i];
    var x := a[i];
    var j := i;
    while j > 0 && Compare(a[j - 1], x, key) > 0
      invariant 0 <= j <= i
      invariant forall m :: 0 <= m < j ==> a[m] == sorted[m]
      invariant forall m :: j < m <= i ==> a[m] == sorted[m - 1]
      invariant forall m :: j <= m < i ==> key(sorted[m]) > key(x)
      invariant forall m :: i < m < a.Length ==> a[m] == old(a[m])
    {
      a[j] := a[j - 1];
      j := j - 1;
    }
    a[j] := x;
    InsertAt(x, sorted, key, j);
    ShiftedIsSplice(a[..i + 1], sorted, x, j);
  }

  /** Sorts `a` in place by insertion; the result is the reference sort of the old contents. */
  method SortInPlace<T>(a: array<T>, key: T -> int)
    modifies a
    ensures a[..] == Sort(old(a[..]), key)
  {
    ghost var s := a[..];
    var i := 0;
    while i < a.Length
      invariant 0 <= i <= a.Length
      invariant a[..i] == Sort(s[..i], key)
      invariant a[i..] == s[i..]
    {
      SortSorted(s[..i], key);
      assert a[i] == s[i] by {
        assert a[i..][0] == s[i..][0];
      }
      assert a[i + 1..] == s[i + 1..] by {
        assert a[i..][1..] == a[i + 1..] && s[i..][1..] == s[i + 1..];
      }
      InsertInPlace(a, i, key);
      assert s[..i + 1][..i] == s[..i];
      assert Sort(s[..i + 1], key) == Insert(s[i], Sort(s[..i], key), key);
      i := i + 1;
    }
    assert s[..a.Length] == s;
  }
}
