/** Stable descending sort by an integer key, as the engine's `Array.prototype.sort` and
    Python `sorted(..., reverse=True)` calls use it: higher keys first, equal keys in their
    original order. */
module Ranking {

  /** An item paired with the number it is ranked by. */
  datatype Keyed<T> = Keyed(item: T, key: int)

  predicate SortedDesc<T>(s: seq<Keyed<T>>)
  {
    forall i, j :: 0 <= i < j < |s| ==> s[i].key >= s[j].key
  }

  /** Places `x` after every element whose key is at least its own. */
  function Insert<T>(x: Keyed<T>, s: seq<Keyed<T>>): (r: seq<Keyed<T>>)
    ensures |r| == |s| + 1
  {
    if s == [] then [x]
    else if s[0].key >= x.key then [s[0]] + Insert(x, s[1..])
    else [x] + s
  }

  /** Insertion sort: the specification of every descending sort in the engine. */
  function SortDesc<T>(s: seq<Keyed<T>>): (r: seq<Keyed<T>>)
    ensures |r| == |s|
  {
    if s == [] then [] else Insert(s[|s| - 1], SortDesc(s[..|s| - 1]))
  }

  /** The first `n` elements, or all of them when there are fewer. */
  function Take<T>(s: seq<T>, n: nat): (r: seq<T>)
    ensures |r| == if |s| < n then |s| else n
    ensures r == s[..|r|]
  {
    if |s| < n then s else s[..n]
  }

  function Items<T>(s: seq<Keyed<T>>): (r: seq<T>)
    ensures |r| == |s| && forall k :: 0 <= k < |s| ==> r[k] == s[k].item
  {
    seq(|s|, k requires 0 <= k < |s| => s[k].item)
  }

  /** Extending a prefix of `all` by the next element of `all` gives the next prefix. */
  lemma PrefixSnoc<T>(all: seq<T>, done: seq<T>, x: T)
    requires |done| < |all| && done == all[..|done|] && x == all[|done|]
    ensures done + [x] == all[..|done| + 1]
  {
    assert all[..|done| + 1] == all[..|done|] + [all[|done|]];
  }

  /** The elements of `s` whose key is `k`, in order. */
  function WithKey<T>(s: seq<Keyed<T>>, k: int): seq<Keyed<T>>
  {
    if s == [] then []
    else (if s[0].key == k then [s[0]] else []) + WithKey(s[1..], k)
  }

  /** Inserting adds exactly one element. */
  lemma {:induction false} InsertCount<T>(x: Keyed<T>, s: seq<Keyed<T>>)
    ensures multiset(Insert(x, s)) == multiset(s) + multiset{x}
  {
    if s != [] && s[0].key >= x.key {
      InsertCount(x, s[1..]);
      assert Insert(x, s) == [s[0]] + Insert(x, s[1..]);
      assert s == [s[0]] + s[1..];
      assert multiset(Insert(x, s)) == multiset{s[0]} + multiset(Insert(x, s[1..]));
      assert multiset(s) == multiset{s[0]} + multiset(s[1..]);
    }
  }

  lemma {:induction false} InsertSorted<T>(x: Keyed<T>, s: seq<Keyed<T>>)
    requires SortedDesc(s)
    ensures SortedDesc(Insert(x, s))
    ensures multiset(Insert(x, s)) == multiset(s) + multiset{x}
  {
    InsertCount(x, s);
    if s != [] && s[0].key >= x.key {
      InsertSorted(x, s[1..]);
      InsertBounded(x, s[1..], s[0].key);
      assert Insert(x, s) == [s[0]] + Insert(x, s[1..]);
    }
  }

  /** Inserting below a bound that every element respects keeps every key below it. */
  lemma {:induction false} InsertBounded<T>(x: Keyed<T>, s: seq<Keyed<T>>, b: int)
    requires x.key <= b && forall j :: 0 <= j < |s| ==> s[j].key <= b
    ensures forall j :: 0 <= j < |Insert(x, s)| ==> Insert(x, s)[j].key <= b
  {
    if s != [] && s[0].key >= x.key {
      InsertBounded(x, s[1..], b);
      assert Insert(x, s) == [s[0]] + Insert(x, s[1..]);
    }
  }

  /** The sort returns its input in descending key order. */
  lemma {:induction false} SortDescSorted<T>(s: seq<Keyed<T>>)
    ensures SortedDesc(SortDesc(s))
    ensures multiset(SortDesc(s)) == multiset(s)
  {
    if s != [] {
      var init := s[..|s| - 1];
      SortDescSorted(init);
      InsertSorted(s[|s| - 1], SortDesc(init));
      assert s == init + [s[|s| - 1]];
    }
  }

  lemma {:induction false} WithKeyAppend<T>(a: seq<Keyed<T>>, b: seq<Keyed<T>>, k: int)
    ensures WithKey(a + b, k) == WithKey(a, k) + WithKey(b, k)
  {
    if a == [] {
      assert a + b == b;
    } else {
      var head := if a[0].key == k then [a[0]] else [];
      WithKeyAppend(a[1..], b, k);
      assert (a + b)[0] == a[0] && (a + b)[1..] == a[1..] + b;
      assert WithKey(a + b, k) == head + WithKey(a[1..] + b, k);
      assert WithKey(a, k) == head + WithKey(a[1..], k);
    }
  }

  lemma {:induction false} InsertWithKey<T>(x: Keyed<T>, s: seq<Keyed<T>>, k: int)
    requires SortedDesc(s)
    ensures WithKey(Insert(x, s), k) == WithKey(s, k) + (if x.key == k then [x] else [])
  {
    if s == [] {
    } else if s[0].key >= x.key {
      InsertWithKey(x, s[1..], k);
      assert ([s[0]] + Insert(x, s[1..]))[1..] == Insert(x, s[1..]);
    } else {
      assert ([x] + s)[1..] == s;
      if x.key == k {
        NoneWithKey(s, k);
      }
    }
  }

  lemma {:induction false} NoneWithKey<T>(s: seq<Keyed<T>>, k: int)
    requires forall j :: 0 <= j < |s| ==> s[j].key != k
    ensures WithKey(s, k) == []
  {
    if s != [] {
      NoneWithKey(s[1..], k);
    }
  }

  lemma {:induction false} InsertItems<T>(x: Keyed<T>, s: seq<Keyed<T>>)
    ensures multiset(Items(Insert(x, s))) == multiset(Items(s)) + multiset{x.item}
  {
    if s == [] {
      assert Items(Insert(x, s)) == [x.item];
    } else if s[0].key >= x.key {
      var r := Insert(x, s[1..]);
      InsertItems(x, s[1..]);
      assert Items(Insert(x, s)) == [s[0].item] + Items(r);
      assert Items(s) == [s[0].item] + Items(s[1..]);
      assert multiset(Items(Insert(x, s))) == multiset{s[0].item} + multiset(Items(r));
      assert multiset(Items(s)) == multiset{s[0].item} + multiset(Items(s[1..]));
    } else {
      assert Items(Insert(x, s)) == [x.item] + Items(s);
    }
  }

  /** The sort permutes the items it carries: nothing is added, dropped or duplicated. */
  lemma {:induction false} SortDescItems<T>(s: seq<Keyed<T>>)
    ensures multiset(Items(SortDesc(s))) == multiset(Items(s))
  {
    if s != [] {
      var init, x := s[..|s| - 1], s[|s| - 1];
      SortDescItems(init);
      InsertItems(x, SortDesc(init));
      assert Items(s) == Items(init) + [x.item];
    }
  }

  /** The first `n` of the sorted items are drawn from the input without repetition: each
      item occurs among them at most as often as in the input. */
  lemma TopItemsSubMultiset<T>(s: seq<Keyed<T>>, n: nat)
    ensures multiset(Items(Take(SortDesc(s), n))) <= multiset(Items(s))
  {
    var r := SortDesc(s);
    var t := Take(r, n);
    SortDescItems(s);
    assert r == t + r[|t|..];
    assert Items(r) == Items(t) + Items(r[|t|..]);
  }

  /** `f` applied to each element, in order. */
  function Map<T, U>(f: T -> U, s: seq<T>): (r: seq<U>)
    ensures |r| == |s| && forall k :: 0 <= k < |s| ==> r[k] == f(s[k])
  {
    seq(|s|, k requires 0 <= k < |s| => f(s[k]))
  }

  /** Mapping keeps a sub-multiset a sub-multiset. */
  lemma {:induction false} MapSubMultiset<T, U>(f: T -> U, a: seq<T>, b: seq<T>)
    requires multiset(a) <= multiset(b)
    ensures multiset(Map(f, a)) <= multiset(Map(f, b))
    decreases |a|
  {
    if a != [] {
      var a0, x := a[..|a| - 1], a[|a| - 1];
      assert a == a0 + [x];
      assert Map(f, a) == Map(f, a0) + [f(x)];
      assert x in multiset(b);
      var i :| 0 <= i < |b| && b[i] == x;
      var b0 := b[..i] + b[i + 1..];
      RemoveAt(b, i);
      SubMultisetLessOne(multiset(a0), multiset(b0), x);
      MapSubMultiset(f, a0, b0);
      MapRemoveAt(f, b, i);
      SubMultisetPlusOne(multiset(Map(f, a0)), multiset(Map(f, b0)), f(x));
    }
  }

  lemma RemoveAt<T>(b: seq<T>, i: nat)
    requires i < |b|
    ensures multiset(b) == multiset(b[..i] + b[i + 1..]) + multiset{b[i]}
  {
    assert b == b[..i] + [b[i]] + b[i + 1..];
  }

  lemma MapRemoveAt<T, U>(f: T -> U, b: seq<T>, i: nat)
    requires i < |b|
    ensures multiset(Map(f, b)) == multiset(Map(f, b[..i] + b[i + 1..])) + multiset{f(b[i])}
  {
    assert Map(f, b) == Map(f, b[..i]) + [f(b[i])] + Map(f, b[i + 1..]);
    assert Map(f, b[..i] + b[i + 1..]) == Map(f, b[..i]) + Map(f, b[i + 1..]);
  }

  lemma SubMultisetLessOne<T>(a: multiset<T>, b: multiset<T>, x: T)
    requires a + multiset{x} <= b + multiset{x}
    ensures a <= b
  {
    forall y
      ensures a[y] <= b[y]
    {
      assert (a + multiset{x})[y] <= (b + multiset{x})[y];
    }
  }

  lemma SubMultisetPlusOne<T>(a: multiset<T>, b: multiset<T>, x: T)
    requires a <= b
    ensures a + multiset{x} <= b + multiset{x}
  {
    forall y
      ensures (a + multiset{x})[y] <= (b + multiset{x})[y]
    {
      assert a[y] <= b[y];
    }
  }

  /** No element appears twice. */
  ghost predicate Distinct<T>(s: seq<T>)
  {
    forall i, j :: 0 <= i < j < |s| ==> s[i] != s[j]
  }

  /** A sub-multiset of a sequence without repeats has no repeats either. */
  lemma DistinctSub<T>(r: seq<T>, s: seq<T>)
    requires multiset(r) <= multiset(s) && Distinct(s)
    ensures Distinct(r)
  {
    forall i, j | 0 <= i < j < |r|
      ensures r[i] != r[j]
    {
      RepeatCounted(r, i, j);
      DistinctOnce(s, r[i]);
    }
  }

  lemma RepeatCounted<T>(r: seq<T>, i: nat, j: nat)
    requires i < j < |r|
    ensures r[i] == r[j] ==> multiset(r)[r[i]] >= 2
  {
    assert r == r[..i] + [r[i]] + r[i + 1..j] + [r[j]] + r[j + 1..];
  }

  lemma {:induction false} DistinctOnce<T>(s: seq<T>, x: T)
    requires Distinct(s)
    ensures multiset(s)[x] <= 1
    decreases |s|
  {
    if s != [] {
      assert s == [s[0]] + s[1..];
      DistinctOnce(s[1..], x);
      if x == s[0] {
        assert x !in s[1..];
      }
    }
  }

  /** Stability: among equal keys the sort keeps the original order. */
  lemma {:induction false} SortDescStable<T>(s: seq<Keyed<T>>, k: int)
    ensures WithKey(SortDesc(s), k) == WithKey(s, k)
  {
    if s != [] {
      var init, x := s[..|s| - 1], s[|s| - 1];
      SortDescStable(init, k);
      SortDescSorted(init);
      InsertWithKey(x, SortDesc(init), k);
      assert s == init + [x];
      WithKeyAppend(init, [x], k);
    }
  }

  /** Whatever the cut drops ranks no higher than anything it keeps: an element whose key beats
      the last one kept is among the kept ones. */
  lemma TopOfSortDesc<T>(s: seq<Keyed<T>>, n: nat, x: Keyed<T>)
    requires x in s && 0 < n
    requires x.key > Take(SortDesc(s), n)[|Take(SortDesc(s), n)| - 1].key
    ensures x in Take(SortDesc(s), n)
  {
    SortDescSorted(s);
    var r := SortDesc(s);
    assert x in multiset(r);
    if n <= |r| {
      assert forall m :: n <= m < |r| ==> r[m].key <= r[n - 1].key;
    }
  }

  /** The sort neither invents nor loses elements. */
  lemma SortDescMembers<T>(s: seq<Keyed<T>>)
    ensures forall x :: x in SortDesc(s) <==> x in s
  {
    SortDescSorted(s);
    forall x
      ensures x in SortDesc(s) <==> x in s
    {
      assert x in SortDesc(s) <==> x in multiset(SortDesc(s));
    }
  }

  /** Each entry of the sorted sequence is an entry of the input. */
  lemma SortDescEntry<T>(s: seq<Keyed<T>>, k: nat)
    requires k < |SortDesc(s)|
    ensures exists m :: 0 <= m < |s| && s[m] == SortDesc(s)[k]
  {
    SortDescSorted(s);
    var x := SortDesc(s)[k];
    assert x in multiset(SortDesc(s));
    assert x in multiset(s);
  }

  /** Whatever the cut keeps comes from the input. */
  lemma TakeSortDescFrom<T>(s: seq<Keyed<T>>, n: nat, x: Keyed<T>)
    requires x in Take(SortDesc(s), n)
    ensures x in s
  {
    SortDescMembers(s);
    var r := SortDesc(s);
    var k :| 0 <= k < |Take(r, n)| && Take(r, n)[k] == x;
    assert r[k] == x;
  }

  /** The item form of TopOfSortDesc: an entry whose key beats the last one kept has its item
      among the items kept. */
  lemma TopItemsOfSortDesc<T>(s: seq<Keyed<T>>, n: nat, x: Keyed<T>)
    requires x in s && 0 < n
    requires x.key > Take(SortDesc(s), n)[|Take(SortDesc(s), n)| - 1].key
    ensures x.item in Items(Take(SortDesc(s), n))
  {
    TopOfSortDesc(s, n, x);
    var top := Take(SortDesc(s), n);
    var k :| 0 <= k < |top| && top[k] == x;
    assert Items(top)[k] == x.item;
  }

  /** Entry `m` of `s`, when it outscores the last of the first `n` sorted entries, is among them. */
  lemma TopItemAt<T>(s: seq<Keyed<T>>, n: nat, m: nat)
    requires m < |s| && 0 < n
    requires s[m].key > Take(SortDesc(s), n)[|Take(SortDesc(s), n)| - 1].key
    ensures s[m].item in Items(Take(SortDesc(s), n))
  {
    assert s[m] in s;
    TopItemsOfSortDesc(s, n, s[m]);
  }

  /** Insert at position `j`, where every key before `j` is at least `x`'s and every key from
      `j` on is below it. */
  lemma {:induction false} InsertAt<T>(x: Keyed<T>, s: seq<Keyed<T>>, j: nat)
    requires j <= |s|
    requires forall m :: 0 <= m < j ==> s[m].key >= x.key
    requires forall m :: j <= m < |s| ==> s[m].key < x.key
    ensures Insert(x, s) == s[..j] + [x] + s[j..]
  {
    if j > 0 {
      var t := s[1..];
      assert s[0].key >= x.key;
      assert Insert(x, s) == [s[0]] + Insert(x, t);
      forall m | 0 <= m < j - 1
        ensures t[m].key >= x.key
      {
        assert t[m] == s[m + 1];
      }
      forall m | j - 1 <= m < |t|
        ensures t[m].key < x.key
      {
        assert t[m] == s[m + 1];
      }
      InsertAt(x, t, j - 1);
      assert t[..j - 1] == s[1..j] && t[j - 1..] == s[j..];
      assert s[..j] == [s[0]] + s[1..j];
    } else if s != [] {
      assert s[0].key < x.key;
      assert s[..0] == [] && s[0..] == s;
    }
  }

  /** Shifts the elements of `a[..i]` whose key is below `x.key`, scanning from the right, one
      place to the right; returns the index of the gap left for `x`. */
  method OpenGap<T>(a: array<Keyed<T>>, i: nat, x: Keyed<T>) returns (j: nat)
    requires i < a.Length
    modifies a
    ensures j <= i
    ensures forall m :: 0 <= m < j ==> a[m] == old(a[m])
    ensures forall m :: j < m <= i ==> a[m] == old(a[m - 1])
    ensures forall m :: i < m < a.Length ==> a[m] == old(a[m])
    ensures j > 0 ==> old(a[j - 1]).key >= x.key
    ensures forall m :: j <= m < i ==> old(a[m]).key < x.key
  {
    j := i;
    while j > 0 && a[j - 1].key < x.key
      invariant 0 <= j <= i
      invariant forall m :: 0 <= m < j ==> a[m] == old(a[m])
      invariant forall m :: j < m <= i ==> a[m] == old(a[m - 1])
      invariant forall m :: i < m < a.Length ==> a[m] == old(a[m])
      invariant forall m :: j <= m < i ==> old(a[m]).key < x.key
    {
      a[j] := a[j - 1];
      j := j - 1;
    }
  }

  /** One step of insertion sort: moves `a[i]` left past every smaller key of the sorted prefix
      `a[..i]`. */
  method InsertInto<T>(a: array<Keyed<T>>, i: nat)
    requires i < a.Length && SortedDesc(a[..i])
    modifies a
    ensures a[..i + 1] == Insert(old(a[i]), old(a[..i]))
    ensures a[i + 1..] == old(a[i + 1..])
  {
    ghost var s := a[..i];
    var x := a[i];
    var j := OpenGap(a, i, x);
    a[j] := x;
    ghost var want := s[..j] + [x] + s[j..];
    forall m | 0 <= m <= i
      ensures a[m] == want[m]
    {
      if m < j {
        assert want[m] == s[m];
      } else if m > j {
        assert want[m] == s[m - 1];
      }
    }
    assert a[..i + 1] == want;
    forall m | 0 <= m < j
      ensures s[m].key >= x.key
    {
      assert s[m].key >= s[j - 1].key;
    }
    InsertAt(x, s, j);
  }

  /** In-place insertion sort, the way the engine's arrays are sorted. */
  method SortInPlace<T>(a: array<Keyed<T>>)
    modifies a
    ensures a[..] == SortDesc(old(a[..]))
  {
    ghost var input := a[..];
    var i := 0;
    while i < a.Length
      invariant 0 <= i <= a.Length
      invariant a[..i] == SortDesc(input[..i])
      invariant a[i..] == input[i..]
    {
      SortDescSorted(input[..i]);
      InsertInto(a, i);
      assert input[..i + 1][..i] == input[..i];
      i := i + 1;
    }
    assert input[..a.Length] == input;
  }

  /** A sorted copy of `s`, made by filling a fresh array and sorting it in place. */
  method SortedCopy<T>(s: seq<Keyed<T>>) returns (r: seq<Keyed<T>>)
    ensures r == SortDesc(s)
    ensures SortedDesc(r) && multiset(r) == multiset(s)
  {
    var a := new Keyed<T>[|s|](k requires 0 <= k < |s| => s[k]);
    assert a[..] == s;
    SortInPlace(a);
    r := a[..];
    SortDescSorted(s);
  }
}
