/** Stable sorting by a numeric key, as Python's `sorted` and `list.sort` do it. */
module Ordering {

  /** The elements whose key is k, in order. */
  ghost function WithKey<T>(key: T -> real, k: real, s: seq<T>): seq<T> {
    if s == [] then []
    else WithKey(key, k, s[..|s| - 1]) + if key(s[|s| - 1]) == k then [s[|s| - 1]] else []
  }

  ghost predicate SortedBy<T>(key: T -> real, s: seq<T>) {
    forall i, j :: 0 <= i < j < |s| ==> key(s[i]) <= key(s[j])
  }

  /** A stable rearrangement is a permutation that keeps, for every key value, the elements
      with that key in their original order. */
  ghost predicate StableRearrangement<T>(key: T -> real, s: seq<T>, r: seq<T>) {
    && multiset(r) == multiset(s)
    && forall k: real :: WithKey(key, k, r) == WithKey(key, k, s)
  }

  lemma {:induction false} WithKeyConcat<T>(key: T -> real, k: real, a: seq<T>, b: seq<T>)
    ensures WithKey(key, k, a + b) == WithKey(key, k, a) + WithKey(key, k, b)
  {
    if b == [] {
      assert a + b == a;
    } else {
      assert (a + b)[..|a + b| - 1] == a + b[..|b| - 1];
      WithKeyConcat(key, k, a, b[..|b| - 1]);
    }
  }

  lemma {:induction false} WithKeyNone<T>(key: T -> real, k: real, s: seq<T>)
    requires forall i :: 0 <= i < |s| ==> key(s[i]) != k
    ensures WithKey(key, k, s) == []
  {
    if s == [] {
    } else {
      WithKeyNone(key, k, s[..|s| - 1]);
    }
  }

  /** Where a new element goes: after everything with a key no larger than its own. */
  function Slot<T>(key: T -> real, s: seq<T>, x: T): (i: nat)
    ensures i <= |s|
  {
    if s == [] then 0
    else if key(s[|s| - 1]) <= key(x) then |s|
    else Slot(key, s[..|s| - 1], x)
  }

  lemma {:induction false} SlotPosition<T>(key: T -> real, s: seq<T>, x: T)
    ensures var i := Slot(key, s, x);
            && (forall j :: i <= j < |s| ==> key(x) < key(s[j]))
            && (i > 0 ==> key(s[i - 1]) <= key(x))
  {
    if s != [] && key(s[|s| - 1]) > key(x) {
      SlotPosition(key, s[..|s| - 1], x);
    }
  }

  function Insert<T>(key: T -> real, s: seq<T>, x: T): seq<T> {
    var i := Slot(key, s, x);
    s[..i] + [x] + s[i..]
  }

  lemma {:induction false} WithKeySwap<T>(key: T -> real, k: real, a: seq<T>, b: seq<T>, x: T)
    requires forall j :: 0 <= j < |b| ==> key(b[j]) != key(x)
    ensures WithKey(key, k, a + [x] + b) == WithKey(key, k, a + b + [x])
  {
    var wa, wb, wx := WithKey(key, k, a), WithKey(key, k, b), WithKey(key, k, [x]);
    assert wb == [] || wx == [] by {
      if key(x) == k {
        WithKeyNone(key, k, b);
      } else {
        WithKeyNone(key, k, [x]);
      }
    }
    assert WithKey(key, k, a + [x] + b) == wa + wx + wb by {
      WithKeyConcat(key, k, a + [x], b);
      WithKeyConcat(key, k, a, [x]);
    }
    assert WithKey(key, k, a + b + [x]) == wa + wb + wx by {
      WithKeyConcat(key, k, a + b, [x]);
      WithKeyConcat(key, k, a, b);
    }
  }

  lemma {:induction false} InsertKeepsKeyOrder<T>(key: T -> real, s: seq<T>, x: T, k: real)
    ensures WithKey(key, k, Insert(key, s, x)) == WithKey(key, k, s + [x])
  {
    var i := Slot(key, s, x);
    SlotPosition(key, s, x);
    WithKeySwap(key, k, s[..i], s[i..], x);
    assert s == s[..i] + s[i..];
  }

  lemma {:induction false} InsertSorted<T>(key: T -> real, s: seq<T>, x: T)
    requires SortedBy(key, s)
    ensures SortedBy(key, Insert(key, s, x))
  {
    var i, r := Slot(key, s, x), Insert(key, s, x);
    SlotPosition(key, s, x);
    forall a, b | 0 <= a < b < |r|
      ensures key(r[a]) <= key(r[b])
    {
      assert r[a] == if a < i then s[a] else if a == i then x else s[a - 1];
      assert r[b] == if b < i then s[b] else if b == i then x else s[b - 1];
    }
  }

  lemma {:induction false} InsertPermutes<T>(key: T -> real, s: seq<T>, x: T)
    ensures multiset(Insert(key, s, x)) == multiset(s + [x])
  {
    var i := Slot(key, s, x);
    assert s == s[..i] + s[i..];
  }

  /** Stable insertion sort by ascending key. */
  function Sort<T>(key: T -> real, s: seq<T>): (r: seq<T>)
    ensures |r| == |s|
  {
    if s == [] then [] else Insert(key, Sort(key, s[..|s| - 1]), s[|s| - 1])
  }

  lemma {:induction false} SortStable<T>(key: T -> real, s: seq<T>)
    ensures SortedBy(key, Sort(key, s))
    ensures StableRearrangement(key, s, Sort(key, s))
  {
    if s == [] {
    } else {
      var front, x := s[..|s| - 1], s[|s| - 1];
      assert s == front + [x];
      SortStable(key, front);
      var r := Sort(key, front);
      InsertSorted(key, r, x);
      InsertPermutes(key, r, x);
      assert multiset(r + [x]) == multiset(s);
      forall k: real
        ensures WithKey(key, k, Sort(key, s)) == WithKey(key, k, s)
      {
        InsertKeepsKeyOrder(key, r, x, k);
        WithKeyConcat(key, k, r, [x]);
        WithKeyConcat(key, k, front, [x]);
      }
    }
  }

  lemma {:induction false} SameLength<T>(a: seq<T>, b: seq<T>)
    requires multiset(a) == multiset(b)
    ensures |a| == |b|
  {
    assert |multiset(a)| == |a| && |multiset(b)| == |b|;
  }

  lemma {:induction false} SameLast<T>(key: T -> real, a: seq<T>, b: seq<T>)
    requires SortedBy(key, a) && SortedBy(key, b)
    requires StableRearrangement(key, a, b)
    requires a != []
    ensures |a| == |b| && a[|a| - 1] == b[|b| - 1]
  {
    SameLength(a, b);
    var n := |a|;
    var x, y := a[n - 1], b[n - 1];
    assert y in multiset(b) && x in multiset(a);
    assert y in a && x in b;
    assert key(x) == key(y);
    var ka, kb := WithKey(key, key(x), a), WithKey(key, key(x), b);
    assert ka[|ka| - 1] == x && kb[|kb| - 1] == y;
  }

  lemma {:induction false} DropLast<T>(key: T -> real, a: seq<T>, b: seq<T>, x: T)
    requires StableRearrangement(key, a + [x], b + [x])
    ensures StableRearrangement(key, a, b)
  {
    assert multiset(a + [x]) == multiset(a) + multiset{x};
    assert multiset(b + [x]) == multiset(b) + multiset{x};
    forall k: real
      ensures WithKey(key, k, b) == WithKey(key, k, a)
    {
      var wa, wb, wx := WithKey(key, k, a), WithKey(key, k, b), WithKey(key, k, [x]);
      assert wa + wx == wb + wx by {
        WithKeyConcat(key, k, a, [x]);
        WithKeyConcat(key, k, b, [x]);
        assert WithKey(key, k, a + [x]) == WithKey(key, k, b + [x]);
      }
      assert wa == (wa + wx)[..|wa|] && wb == (wb + wx)[..|wa|];
    }
    assert multiset(a) == multiset(a) + multiset{x} - multiset{x};
  }

  /** A sorted stable rearrangement is unique: "the stable ordering" is well defined. */
  lemma {:induction false} StableOrderUnique<T>(key: T -> real, a: seq<T>, b: seq<T>)
    requires SortedBy(key, a) && SortedBy(key, b)
    requires StableRearrangement(key, a, b)
    ensures a == b
    decreases |a|
  {
    SameLength(a, b);
    if a == [] {
    } else {
      SameLast(key, a, b);
      var a', b', x := a[..|a| - 1], b[..|b| - 1], a[|a| - 1];
      assert a == a' + [x] && b == b' + [x];
      DropLast(key, a', b', x);
      StableOrderUnique(key, a', b');
    }
  }

  /** `Sort` computes the stable ordering: any sorted stable rearrangement is its result. */
  lemma {:induction false} SortIsTheStableOrder<T>(key: T -> real, s: seq<T>, r: seq<T>)
    requires SortedBy(key, r) && StableRearrangement(key, s, r)
    ensures r == Sort(key, s)
  {
    SortStable(key, s);
    StableOrderUnique(key, r, Sort(key, s));
  }

  // ---- filtering and sorting ----

  function Filter<T>(p: T -> bool, s: seq<T>): seq<T> {
    if s == [] then []
    else Filter(p, s[..|s| - 1]) + if p(s[|s| - 1]) then [s[|s| - 1]] else []
  }

  lemma {:induction false} FilterMembers<T>(p: T -> bool, s: seq<T>, i: nat)
    requires i < |Filter(p, s)|
    ensures p(Filter(p, s)[i]) && Filter(p, s)[i] in s
  {
    if i < |Filter(p, s[..|s| - 1])| {
      FilterMembers(p, s[..|s| - 1], i);
    }
  }

  lemma {:induction false} FilterSorted<T>(key: T -> real, p: T -> bool, s: seq<T>)
    requires SortedBy(key, s)
    ensures SortedBy(key, Filter(p, s))
  {
    if s == [] {
    } else {
      var f := Filter(p, s[..|s| - 1]);
      FilterSorted(key, p, s[..|s| - 1]);
      forall i | 0 <= i < |f|
        ensures key(f[i]) <= key(s[|s| - 1])
      {
        FilterMembers(p, s[..|s| - 1], i);
      }
    }
  }

  lemma {:induction false} FilterWithKey<T>(key: T -> real, k: real, p: T -> bool, s: seq<T>)
    ensures WithKey(key, k, Filter(p, s)) == Filter(p, WithKey(key, k, s))
  {
    if s == [] {
    } else {
      var front, x := s[..|s| - 1], s[|s| - 1];
      FilterWithKey(key, k, p, front);
      var f, w := Filter(p, front), WithKey(key, k, front);
      assert f + [] == f && w + [] == w && WithKey(key, k, f) + [] == WithKey(key, k, f)
          && Filter(p, w) + [] == Filter(p, w);
      if p(x) {
        assert (f + [x])[..|f + [x]| - 1] == f;
      }
      if key(x) == k {
        assert (w + [x])[..|w + [x]| - 1] == w;
      }
    }
  }

  lemma {:induction false} FilterCount<T>(p: T -> bool, s: seq<T>, x: T)
    ensures multiset(Filter(p, s))[x] == if p(x) then multiset(s)[x] else 0
  {
    if s == [] {
    } else {
      FilterCount(p, s[..|s| - 1], x);
      assert s == s[..|s| - 1] + [s[|s| - 1]];
    }
  }

  lemma {:induction false} FilterPermutes<T>(p: T -> bool, a: seq<T>, b: seq<T>)
    requires multiset(a) == multiset(b)
    ensures multiset(Filter(p, a)) == multiset(Filter(p, b))
  {
    var fa, fb := Filter(p, a), Filter(p, b);
    forall i | 0 <= i < |fa|
      ensures multiset(fa)[fa[i]] == multiset(fb)[fa[i]]
    {
      FilterCount(p, a, fa[i]);
      FilterCount(p, b, fa[i]);
    }
    forall i | 0 <= i < |fb|
      ensures multiset(fa)[fb[i]] == multiset(fb)[fb[i]]
    {
      FilterCount(p, a, fb[i]);
      FilterCount(p, b, fb[i]);
    }
    assert forall x :: x in multiset(fa) ==> x in fa;
    assert forall x :: x in multiset(fb) ==> x in fb;
    assert multiset(fa) <= multiset(fb) && multiset(fb) <= multiset(fa);
  }

  /** Filtering a stable ordering gives the stable ordering of the filtered elements. */
  lemma {:induction false} FilterOfSort<T>(key: T -> real, p: T -> bool, s: seq<T>)
    ensures Filter(p, Sort(key, s)) == Sort(key, Filter(p, s))
  {
    SortStable(key, s);
    var sorted, r := Sort(key, s), Filter(p, Sort(key, s));
    FilterSorted(key, p, sorted);
    forall k: real
      ensures WithKey(key, k, r) == WithKey(key, k, Filter(p, s))
    {
      FilterWithKey(key, k, p, sorted);
      FilterWithKey(key, k, p, s);
      assert WithKey(key, k, sorted) == WithKey(key, k, s);
    }
    FilterPermutes(p, sorted, s);
    SortIsTheStableOrder(key, Filter(p, s), r);
  }

  lemma {:induction false} FilterConcat<T>(p: T -> bool, a: seq<T>, b: seq<T>)
    ensures Filter(p, a + b) == Filter(p, a) + Filter(p, b)
  {
    if b == [] {
      assert a + b == a;
    } else {
      assert (a + b)[..|a + b| - 1] == a + b[..|b| - 1];
      FilterConcat(p, a, b[..|b| - 1]);
    }
  }

  lemma {:induction false} FilterOne<T>(p: T -> bool, x: T)
    ensures Filter(p, [x]) == if p(x) then [x] else []
  {
    assert [x][..0] == [];
  }

  /** Replacing an element that does not pass by one that does not pass is invisible. */
  lemma {:induction false} FilterUpdate<T>(p: T -> bool, s: seq<T>, i: nat, x: T)
    requires i < |s| && !p(s[i]) && !p(x)
    ensures Filter(p, s[i := x]) == Filter(p, s)
  {
    var n := |s| - 1;
    if i == n {
      assert s[i := x][..n] == s[..n];
    } else {
      assert s[i := x][..n] == s[..n][i := x];
      FilterUpdate(p, s[..n], i, x);
    }
  }

  lemma {:induction false} FilterSnoc<T>(p: T -> bool, s: seq<T>, x: T)
    ensures Filter(p, s + [x]) == Filter(p, s) + if p(x) then [x] else []
  {
    assert (s + [x])[..|s + [x]| - 1] == s;
  }

  /** Replacing an element that passes by one that passes replaces it in the filtered sequence. */
  lemma {:induction false} FilterReplace<T>(p: T -> bool, s: seq<T>, i: nat, x: T) returns (k: nat)
    requires i < |s| && p(s[i]) && p(x)
    ensures k < |Filter(p, s)| && Filter(p, s)[k] == s[i]
    ensures Filter(p, s[i := x]) == Filter(p, s)[k := x]
  {
    var n := |s| - 1;
    if i == n {
      assert s[i := x][..n] == s[..n];
      k := |Filter(p, s[..n])|;
    } else {
      assert s[i := x][..n] == s[..n][i := x];
      k := FilterReplace(p, s[..n], i, x);
    }
  }

  /** Filtering by a weaker test first changes nothing. */
  lemma {:induction false} FilterTwice<T>(p: T -> bool, q: T -> bool, s: seq<T>)
    requires forall i :: 0 <= i < |s| && p(s[i]) ==> q(s[i])
    ensures Filter(p, Filter(q, s)) == Filter(p, s)
  {
    if s == [] {
    } else {
      var front, x := s[..|s| - 1], s[|s| - 1];
      FilterTwice(p, q, front);
      assert Filter(q, front) + [] == Filter(q, front) && Filter(p, front) + [] == Filter(p, front);
      if q(x) {
        FilterSnoc(p, Filter(q, front), x);
      }
    }
  }

  // ---- distinct names ----

  ghost predicate Distinct<T>(name: T -> string, s: seq<T>) {
    forall i, j :: 0 <= i < j < |s| ==> name(s[i]) != name(s[j])
  }

  lemma {:induction false} FilterDistinct<T>(name: T -> string, p: T -> bool, s: seq<T>)
    requires Distinct(name, s)
    ensures Distinct(name, Filter(p, s))
  {
    if s == [] {
    } else {
      var f := Filter(p, s[..|s| - 1]);
      FilterDistinct(name, p, s[..|s| - 1]);
      forall i | 0 <= i < |f|
        ensures name(f[i]) != name(s[|s| - 1])
      {
        FilterMembers(p, s[..|s| - 1], i);
      }
    }
  }

  lemma {:induction false} InsertDistinct<T>(key: T -> real, name: T -> string, s: seq<T>, x: T)
    requires Distinct(name, s) && forall i :: 0 <= i < |s| ==> name(s[i]) != name(x)
    ensures Distinct(name, Insert(key, s, x))
  {
    var i, q := Slot(key, s, x), Insert(key, s, x);
    forall a, b | 0 <= a < b < |q|
      ensures name(q[a]) != name(q[b])
    {
      assert q[a] == if a < i then s[a] else if a == i then x else s[a - 1];
      assert q[b] == if b < i then s[b] else if b == i then x else s[b - 1];
    }
  }

  lemma {:induction false} SortDistinct<T>(key: T -> real, name: T -> string, s: seq<T>)
    requires Distinct(name, s)
    ensures Distinct(name, Sort(key, s))
  {
    if s == [] {
    } else {
      var front, x := s[..|s| - 1], s[|s| - 1];
      SortDistinct(key, name, front);
      SortStable(key, front);
      var r := Sort(key, front);
      forall i | 0 <= i < |r|
        ensures name(r[i]) != name(x)
      {
        assert r[i] in multiset(r);
        assert r[i] in front;
      }
      InsertDistinct(key, name, r, x);
    }
  }
}
