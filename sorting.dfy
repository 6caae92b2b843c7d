/**
 * Python's `list.sort(key=..., reverse=True)` and `sorted(...)` as an
 * insertion sort over a "comes no later than" relation `ge`: the result is
 * a permutation of the input, ordered by `ge` whenever `ge` is a total
 * preorder (as `key(a) >= key(b)` is).
 */
module Sorting {
  import opened Lib

  /** `ge` orders every pair and is transitive. */
  ghost predicate TotalPreorder<T(!new)>(ge: (T, T) -> bool) {
    && (forall a, b :: ge(a, b) || ge(b, a))
    && (forall a, b, c :: ge(a, b) && ge(b, c) ==> ge(a, c))
  }

  /** Every element comes no later than each one after it. */
  predicate SortedBy<T>(ge: (T, T) -> bool, s: seq<T>) {
    forall i, j :: 0 <= i < j < |s| ==> ge(s[i], s[j])
  }

  /** `x` placed before the first element it comes no later than. */
  function Insert<T>(ge: (T, T) -> bool, x: T, s: seq<T>): (r: seq<T>)
    ensures multiset(r) == multiset(s) + multiset{x}
    ensures |r| == |s| + 1
  {
    if s == [] || ge(x, s[0]) then [x] + s
    else
      assert s == [s[0]] + s[1..];
      [s[0]] + Insert(ge, x, s[1..])
  }

  /** The elements of `s` ordered by `ge`. */
  function SortBy<T>(ge: (T, T) -> bool, s: seq<T>): (r: seq<T>)
    ensures multiset(r) == multiset(s)
    ensures |r| == |s|
  {
    if s == [] then []
    else
      assert s == [s[0]] + s[1..];
      Insert(ge, s[0], SortBy(ge, s[1..]))
  }

  lemma {:induction false} InsertSorted<T(!new)>(ge: (T, T) -> bool, x: T, s: seq<T>)
    requires TotalPreorder(ge) && SortedBy(ge, s)
    ensures SortedBy(ge, Insert(ge, x, s))
  {
    if s != [] && !ge(x, s[0]) {
      var tail := Insert(ge, x, s[1..]);
      InsertSorted(ge, x, s[1..]);
      assert ge(s[0], x);
      HeadBeforeInserted(ge, x, s, tail);
      ConsSorted(ge, s[0], tail);
      assert Insert(ge, x, s) == [s[0]] + tail;
    } else {
      forall j | 0 <= j < |s|
        ensures ge(x, s[j])
      {
        if j > 0 {
          assert ge(s[0], s[j]);
        }
      }
      ConsSorted(ge, x, s);
    }
  }

  /** An element that comes no later than every element of a sorted sequence can go in front of it. */
  lemma ConsSorted<T>(ge: (T, T) -> bool, y: T, t: seq<T>)
    requires SortedBy(ge, t) && forall j :: 0 <= j < |t| ==> ge(y, t[j])
    ensures SortedBy(ge, [y] + t)
  {
    var r := [y] + t;
    forall i, j | 0 <= i < j < |r|
      ensures ge(r[i], r[j])
    {
      assert r[j] == t[j - 1];
      if i > 0 {
        assert r[i] == t[i - 1];
      }
    }
  }

  /** The head of a sorted `s` comes no later than anything in `x` inserted into the rest, when it comes before `x`. */
  lemma HeadBeforeInserted<T>(ge: (T, T) -> bool, x: T, s: seq<T>, tail: seq<T>)
    requires SortedBy(ge, s) && s != [] && ge(s[0], x) && tail == Insert(ge, x, s[1..])
    ensures forall j :: 0 <= j < |tail| ==> ge(s[0], tail[j])
  {
    forall j | 0 <= j < |tail|
      ensures ge(s[0], tail[j])
    {
      assert tail[j] in multiset(tail);
      if tail[j] != x {
        assert tail[j] in multiset(s[1..]);
        var k :| 0 <= k < |s[1..]| && s[1..][k] == tail[j];
        assert s[k + 1] == tail[j];
      }
    }
  }


  /** The sort orders its result. */
  lemma {:induction false} SortBySorted<T(!new)>(ge: (T, T) -> bool, s: seq<T>)
    requires TotalPreorder(ge)
    ensures SortedBy(ge, SortBy(ge, s))
  {
    if s != [] {
      SortBySorted(ge, s[1..]);
      InsertSorted(ge, s[0], SortBy(ge, s[1..]));
    }
  }

  /** The elements of `s` that tie with `y` under `ge` (each comes no later than the other), in order. */
  function TiedWith<T>(ge: (T, T) -> bool, y: T, s: seq<T>): (r: seq<T>)
    ensures |r| <= |s|
  {
    if s == [] then []
    else (if ge(s[0], y) && ge(y, s[0]) then [s[0]] else []) + TiedWith(ge, y, s[1..])
  }

  /**
   * Inserting `x` puts it ahead of every element it ties with: no element
   * before its place ties with it, since `x` would then come no later than
   * that element.
   */
  lemma {:induction false} InsertStable<T(!new)>(ge: (T, T) -> bool, x: T, y: T, t: seq<T>)
    requires TotalPreorder(ge)
    ensures TiedWith(ge, y, Insert(ge, x, t)) ==
            (if ge(x, y) && ge(y, x) then [x] else []) + TiedWith(ge, y, t)
  {
    var r := Insert(ge, x, t);
    if t == [] || ge(x, t[0]) {
      assert r[0] == x && r[1..] == t;
    } else {
      var rest := Insert(ge, x, t[1..]);
      assert r[0] == t[0] && r[1..] == rest;
      InsertStable(ge, x, y, t[1..]);
      var hx := if ge(x, y) && ge(y, x) then [x] else [];
      var h0 := if ge(t[0], y) && ge(y, t[0]) then [t[0]] else [];
      var tail := TiedWith(ge, y, t[1..]);
      assert TiedWith(ge, y, r) == h0 + (hx + tail);
      assert TiedWith(ge, y, t) == h0 + tail;
      if hx != [] && h0 != [] {
        // x would come no later than t[0], through y
        assert false;
      }
      assert h0 + (hx + tail) == hx + (h0 + tail);
    }
  }

  /**
   * `sorted` is stable: the elements that tie with any `y` keep their
   * relative order, as Python's sort guarantees for equal keys.
   */
  lemma {:induction false} SortByStable<T(!new)>(ge: (T, T) -> bool, y: T, s: seq<T>)
    requires TotalPreorder(ge)
    ensures TiedWith(ge, y, SortBy(ge, s)) == TiedWith(ge, y, s)
  {
    if s != [] {
      SortByStable(ge, y, s[1..]);
      InsertStable(ge, s[0], y, SortBy(ge, s[1..]));
    }
  }

  /** Ordering by a real key, largest first, is a total preorder. */
  lemma KeyDescendingPreorder<T(!new)>(key: T -> real)
    ensures TotalPreorder((a: T, b: T) => key(a) >= key(b))
  {
  }

  /** Ordering by a string key, largest first, is a total preorder. */
  lemma StrKeyDescendingPreorder<T(!new)>(ge: (T, T) -> bool, key: T -> string)
    requires forall a, b :: ge(a, b) == StrLe(key(b), key(a))
    ensures TotalPreorder(ge)
  {
    forall a: T, b: T
      ensures ge(a, b) || ge(b, a)
    {
      StrLeTotal(key(b), key(a));
    }
    forall a: T, b: T, c: T | ge(a, b) && ge(b, c)
      ensures ge(a, c)
    {
      StrLeTrans(key(c), key(b), key(a));
    }
  }

  /** No two elements of `s` share a key. */
  predicate KeysDistinct<T, K(==)>(key: T -> K, s: seq<T>) {
    forall i, j :: 0 <= i < j < |s| ==> key(s[i]) != key(s[j])
  }

  /** Appending an element whose key is new keeps the keys distinct. */
  lemma AppendNewKey<T, K>(key: T -> K, s: seq<T>, x: T)
    requires KeysDistinct(key, s)
    requires forall i :: 0 <= i < |s| ==> key(s[i]) != key(x)
    ensures KeysDistinct(key, s + [x])
  {
  }

  /** An element at two positions is counted at least twice. */
  lemma CountedTwice<T>(s: seq<T>, i: nat, j: nat)
    requires i < j < |s| && s[i] == s[j]
    ensures multiset(s)[s[i]] >= 2
  {
    assert s == s[..j] + [s[j]] + s[j + 1..];
    assert s[..j][i] == s[i];
    assert multiset(s[..j])[s[i]] >= 1;
  }

  /** An element counted twice sits at two positions. */
  lemma TwoPositions<T>(s: seq<T>, x: T)
    requires multiset(s)[x] >= 2
    ensures exists i, j :: 0 <= i < j < |s| && s[i] == x && s[j] == x
  {
    var i :| 0 <= i < |s| && s[i] == x;
    var rest := s[..i] + s[i + 1..];
    assert s == s[..i] + [s[i]] + s[i + 1..];
    assert multiset(s) == multiset(rest) + multiset{x};
    assert x in multiset(rest);
    var k :| 0 <= k < |rest| && rest[k] == x;
    if k < i {
      assert s[k] == x;
    } else {
      assert s[k + 1] == x;
    }
  }

  /** A permutation of a list whose keys are distinct has distinct keys. */
  lemma {:induction false} PermutationKeepsKeysDistinct<T, K>(key: T -> K, a: seq<T>, b: seq<T>)
    requires multiset(a) == multiset(b)
    requires KeysDistinct(key, a)
    ensures KeysDistinct(key, b)
  {
    forall i, j | 0 <= i < j < |b|
      ensures key(b[i]) != key(b[j])
    {
      if b[i] == b[j] {
        CountedTwice(b, i, j);
        TwoPositions(a, b[i]);
      } else {
        assert b[i] in multiset(a) && b[j] in multiset(a);
        var p :| 0 <= p < |a| && a[p] == b[i];
        var q :| 0 <= q < |a| && a[q] == b[j];
        assert p != q;
      }
    }
  }

  /** Python's `s[:k]`: a negative `k` counts from the end. */
  function PyPrefix<T>(s: seq<T>, k: int): (r: seq<T>)
    ensures r <= s
    ensures k >= 0 ==> |r| == if k < |s| then k else |s|
    ensures k < 0 ==> |r| == if -k < |s| then |s| + k else 0
  {
    if k >= 0 then (if k < |s| then s[..k] else s)
    else if -k < |s| then s[..|s| + k] else []
  }
}
