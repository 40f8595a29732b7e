/** Stable sorting by a real-valued key.

    This is the one sort of the model. It orders the quintile labels (Python `sorted`)
    and the latitude indices behind `sortby(latitude, ascending=False)`. xarray's
    descending `sortby` reverses a stable ascending order, so both uses start from
    this stable ascending insertion sort.
 */
module Sorting {

  /** `s` is non-decreasing under `key`. */
  ghost predicate SortedBy<T>(s: seq<T>, key: T -> real) {
    forall i, j :: 0 <= i < j < |s| ==> key(s[i]) <= key(s[j])
  }

  /** Puts `x` in front of the first element whose key is at least `x`'s. */
  function Insert<T>(x: T, s: seq<T>, key: T -> real): (r: seq<T>)
    requires SortedBy(s, key)
    ensures multiset(r) == multiset(s) + multiset{x}
    ensures |r| == |s| + 1
    ensures SortedBy(r, key)
    ensures r[0] == x || (|s| > 0 && r[0] == s[0])
  {
    if |s| == 0 then [x]
    else if key(x) <= key(s[0]) then [x] + s
    else
      var rest := Insert(x, s[1..], key);
      assert s == [s[0]] + s[1..];
      assert key(s[0]) <= key(rest[0]);
      var r := [s[0]] + rest;
      assert SortedBy(r, key) by {
        forall i, j | 0 <= i < j < |r| ensures key(r[i]) <= key(r[j]) {
          assert r[j] == rest[j - 1];
          if i > 0 {
            assert r[i] == rest[i - 1];
          } else if j > 1 {
            assert key(rest[0]) <= key(rest[j - 1]);
          }
        }
      }
      r
  }

  /** Insertion sort; an element goes in front of every later element with an equal
      key, so equal keys keep their input order. */
  function SortBy<T>(s: seq<T>, key: T -> real): (r: seq<T>)
    ensures multiset(r) == multiset(s)
    ensures |r| == |s|
    ensures SortedBy(r, key)
  {
    if |s| == 0 then []
    else
      assert s == [s[0]] + s[1..];
      Insert(s[0], SortBy(s[1..], key), key)
  }

  /** Among elements with equal keys, the smaller number comes first. Sorting the
      increasing list of positions 0, 1, 2, … and reading ties this way is what
      stability means: equal keys keep their input order. */
  ghost predicate TiesAscend(r: seq<int>, key: int -> real) {
    forall i, j :: 0 <= i < j < |r| && key(r[i]) == key(r[j]) ==> r[i] < r[j]
  }

  /** Inserting a number below every element keeps ties ascending: it goes in front
      of every element with an equal key. */
  lemma {:induction false} InsertTiesAscend(x: int, t: seq<int>, key: int -> real)
    requires SortedBy(t, key) && TiesAscend(t, key)
    requires forall k :: 0 <= k < |t| ==> x < t[k]
    ensures TiesAscend(Insert(x, t, key), key)
  {
    var r := Insert(x, t, key);
    if |t| == 0 {
    } else if key(x) <= key(t[0]) {
      assert r == [x] + t;
      forall i, j | 0 <= i < j < |r| && key(r[i]) == key(r[j]) ensures r[i] < r[j] {
        if i > 0 {
          assert r[i] == t[i - 1] && r[j] == t[j - 1];
        }
      }
    } else {
      var tail := t[1..];
      InsertTiesAscend(x, tail, key);
      var rest := Insert(x, tail, key);
      assert r == [t[0]] + rest;
      forall i, j | 0 <= i < j < |r| && key(r[i]) == key(r[j]) ensures r[i] < r[j] {
        if i == 0 {
          FromInsert(x, tail, key, j - 1);
        } else {
          assert r[i] == rest[i - 1] && r[j] == rest[j - 1];
        }
      }
    }
  }

  /** Each element of an insertion is the inserted one or an element of the list. */
  lemma FromInsert(x: int, t: seq<int>, key: int -> real, k: int)
    requires SortedBy(t, key) && 0 <= k < |t| + 1
    ensures var r := Insert(x, t, key); r[k] == x || exists m :: 0 <= m < |t| && t[m] == r[k]
  {
    var r := Insert(x, t, key);
    assert r[k] in multiset(r);
  }

  /** The insertion sort is stable: sorting an increasing list of numbers leaves
      equal-key numbers in increasing order. */
  lemma {:induction false} SortByTiesAscend(s: seq<int>, key: int -> real)
    requires forall i, j :: 0 <= i < j < |s| ==> s[i] < s[j]
    ensures TiesAscend(SortBy(s, key), key)
  {
    if |s| > 0 {
      var tail := s[1..];
      SortByTiesAscend(tail, key);
      var sorted := SortBy(tail, key);
      forall k | 0 <= k < |sorted| ensures s[0] < sorted[k] {
        assert sorted[k] in multiset(tail);
        var m :| 0 <= m < |tail| && tail[m] == sorted[k];
        assert s[m + 1] == sorted[k];
      }
      InsertTiesAscend(s[0], sorted, key);
    }
  }

  /** Reversing a list whose ties ascend makes its ties descend. */
  lemma ReverseTiesDescend(t: seq<int>, key: int -> real)
    requires TiesAscend(t, key)
    ensures var r := Reverse(t);
      forall i, j :: 0 <= i < j < |r| && key(r[i]) == key(r[j]) ==> r[i] > r[j]
  {
    var r := Reverse(t);
    forall i, j | 0 <= i < j < |r| && key(r[i]) == key(r[j]) ensures r[i] > r[j] {
      assert r[i] == t[|t| - 1 - i] && r[j] == t[|t| - 1 - j];
    }
  }

  /** Sorting something already in order changes nothing. */
  lemma {:induction false} SortSortedIsIdentity<T>(s: seq<T>, key: T -> real)
    requires SortedBy(s, key)
    ensures SortBy(s, key) == s
  {
    if |s| > 0 {
      assert SortedBy(s[1..], key);
      SortSortedIsIdentity(s[1..], key);
      assert s == [s[0]] + s[1..];
    }
  }

  function Reverse<T>(s: seq<T>): (r: seq<T>)
    ensures |r| == |s|
    ensures forall i :: 0 <= i < |s| ==> r[i] == s[|s| - 1 - i]
    ensures multiset(r) == multiset(s)
  {
    if |s| == 0 then []
    else
      assert s == [s[0]] + s[1..];
      Reverse(s[1..]) + [s[0]]
  }

  /** Two non-decreasing sequences of reals with the same elements are equal: the
      sorted order of a multiset is unique. */
  lemma {:induction false} SortedUnique(a: seq<real>, b: seq<real>)
    requires forall i, j :: 0 <= i < j < |a| ==> a[i] <= a[j]
    requires forall i, j :: 0 <= i < j < |b| ==> b[i] <= b[j]
    requires multiset(a) == multiset(b)
    ensures a == b
  {
    assert |a| == |multiset(a)| == |multiset(b)| == |b|;
    if |a| > 0 {
      assert a[0] in multiset(a) && b[0] in multiset(b);
      FirstIsLeast(b, a[0]);
      FirstIsLeast(a, b[0]);
      var a', b' := a[1..], b[1..];
      assert a == [a[0]] + a';
      assert b == [b[0]] + b';
      assert a[0] == b[0];
      assert multiset(a) == multiset([a[0]]) + multiset(a');
      assert multiset(b) == multiset([b[0]]) + multiset(b');
      assert forall v :: multiset(a')[v] == multiset(b')[v] by {
        forall v ensures multiset(a')[v] == multiset(b')[v] {
          assert multiset(a)[v] == multiset([a[0]])[v] + multiset(a')[v];
          assert multiset(b)[v] == multiset([b[0]])[v] + multiset(b')[v];
        }
      }
      assert multiset(a') == multiset(b');
      TailSorted(a);
      TailSorted(b);
      SortedUnique(a', b');
    }
  }

  lemma TailSorted(s: seq<real>)
    requires |s| > 0
    requires forall i, j :: 0 <= i < j < |s| ==> s[i] <= s[j]
    ensures forall i, j :: 0 <= i < j < |s[1..]| ==> s[1..][i] <= s[1..][j]
  {
    forall i, j | 0 <= i < j < |s[1..]| ensures s[1..][i] <= s[1..][j] {
      assert s[1..][i] == s[i + 1] && s[1..][j] == s[j + 1];
    }
  }

  lemma FirstIsLeast(s: seq<real>, x: real)
    requires forall i, j :: 0 <= i < j < |s| ==> s[i] <= s[j]
    requires x in multiset(s)
    ensures s[0] <= x
  {
    var j :| 0 <= j < |s| && s[j] == x;
  }
}
