/** The descending, stable sort every `Array.prototype.sort((a, b) => b.x - a.x)`
    call of the core performs (the ECMAScript sort is stable since the 2019
    edition). `Sort` is the specification; `SortInPlace` is the in-place
    insertion sort proved equal to it. */
module StableSort {

  /** Keys never increase along `s`. */
  predicate SortedDesc<T>(s: seq<T>, key: T -> real)
  {
    forall i, j :: 0 <= i < j < |s| ==> key(s[i]) >= key(s[j])
  }

  /** The subsequence of the elements of `s` whose key is `v`, in their order
      in `s`. A sort is stable when it leaves every such subsequence as it was. */
  function Filter<T>(s: seq<T>, key: T -> real, v: real): (r: seq<T>)
    ensures |r| <= |s|
  {
    if s == [] then []
    else (if key(s[0]) == v then [s[0]] else []) + Filter(s[1..], key, v)
  }

  lemma {:induction false} FilterAppend<T>(a: seq<T>, b: seq<T>, key: T -> real, v: real)
    ensures Filter(a + b, key, v) == Filter(a, key, v) + Filter(b, key, v)
  {
    if a == [] {
      assert a + b == b;
    } else {
      var t := a[1..];
      var h := if key(a[0]) == v then [a[0]] else [];
      assert (a + b)[0] == a[0];
      assert (a + b)[1..] == t + b;
      FilterAppend(t, b, key, v);
      assert Filter(a + b, key, v) == h + (Filter(t, key, v) + Filter(b, key, v));
      assert Filter(a, key, v) == h + Filter(t, key, v);
    }
  }

  lemma {:induction false} FilterNone<T>(s: seq<T>, key: T -> real, v: real)
    requires forall i :: 0 <= i < |s| ==> key(s[i]) != v
    ensures Filter(s, key, v) == []
  {
    if s != [] {
      FilterNone(s[1..], key, v);
    }
  }

  /** When exactly one element has key `v`, filtering by `v` gives that element. */
  lemma FilterSingle<T>(s: seq<T>, key: T -> real, v: real, k: nat)
    requires k < |s| && key(s[k]) == v
    requires forall j :: 0 <= j < |s| && j != k ==> key(s[j]) != v
    ensures Filter(s, key, v) == [s[k]]
  {
    FilterSplitAt(s, key, v, k);
    FilterNone(s[..k], key, v);
    var back := s[k..];
    assert back[0] == s[k] && back[1..] == s[k + 1..];
    FilterNone(s[k + 1..], key, v);
  }

  /** Filtering a prefix one element longer adds that element when its key matches. */
  lemma FilterSnoc<T>(s: seq<T>, key: T -> real, v: real, n: nat)
    requires n < |s|
    ensures Filter(s[..n + 1], key, v)
         == Filter(s[..n], key, v) + (if key(s[n]) == v then [s[n]] else [])
  {
    assert s[..n + 1] == s[..n] + [s[n]];
    FilterAppend(s[..n], [s[n]], key, v);
    assert [s[n]][1..] == [];
  }

  /** Filtering splits at any position. */
  lemma FilterSplitAt<T>(s: seq<T>, key: T -> real, v: real, n: nat)
    requires n <= |s|
    ensures Filter(s, key, v) == Filter(s[..n], key, v) + Filter(s[n..], key, v)
  {
    assert s == s[..n] + s[n..];
    FilterAppend(s[..n], s[n..], key, v);
  }

  function Insert<T>(x: T, s: seq<T>, key: T -> real): (r: seq<T>)
    ensures |r| == |s| + 1
  {
    if s == [] then [x]
    else if key(s[0]) < key(x) then [x] + s
    else [s[0]] + Insert(x, s[1..], key)
  }

  lemma {:induction false} InsertMultiset<T>(x: T, s: seq<T>, key: T -> real)
    ensures multiset(Insert(x, s, key)) == multiset(s) + multiset{x}
  {
    if s != [] && key(s[0]) >= key(x) {
      InsertMultiset(x, s[1..], key);
      assert s == [s[0]] + s[1..];
    }
  }

  lemma {:induction false} InsertSorted<T>(x: T, s: seq<T>, key: T -> real)
    requires SortedDesc(s, key)
    ensures SortedDesc(Insert(x, s, key), key)
  {
    if s != [] && key(s[0]) >= key(x) {
      var t := Insert(x, s[1..], key);
      InsertMultiset(x, s[1..], key);
      InsertSorted(x, s[1..], key);
      forall j | 0 <= j < |t|
        ensures key(s[0]) >= key(t[j])
      {
        assert t[j] in multiset(t);
        if t[j] != x {
          assert t[j] in multiset(s[1..]);
        }
      }
    }
  }

  /** Where `Insert` places `x`: after the leading elements whose key is at
      least its own. */
  function InsertPos<T>(x: T, s: seq<T>, key: T -> real): (p: nat)
    ensures p <= |s|
    ensures forall k :: 0 <= k < p ==> key(s[k]) >= key(x)
    ensures p < |s| ==> key(s[p]) < key(x)
  {
    if s == [] || key(s[0]) < key(x) then 0 else 1 + InsertPos(x, s[1..], key)
  }

  /** Inserting into a sorted sequence appends `x` to the elements with its
      key and leaves the order of all other keys alone. */
  lemma InsertFilter<T>(x: T, s: seq<T>, key: T -> real, v: real)
    requires SortedDesc(s, key)
    ensures Filter(Insert(x, s, key), key, v)
         == Filter(s, key, v) + (if key(x) == v then [x] else [])
  {
    var p := InsertPos(x, s, key);
    InsertAt(x, s, p, key);
    SortedBelow(s, p, key(x), key);
    assert s == s[..p] + s[p..];
    FilterSplit(x, s[..p], s[p..], key, v);
  }

  /** In a sorted sequence, everything from a position whose key is below `b`
      on is below `b`. */
  lemma SortedBelow<T>(s: seq<T>, p: nat, b: real, key: T -> real)
    requires SortedDesc(s, key) && p <= |s|
    requires p < |s| ==> key(s[p]) < b
    ensures forall k :: 0 <= k < |s[p..]| ==> key(s[p..][k]) < b
  {
    forall k | 0 <= k < |s[p..]|
      ensures key(s[p..][k]) < b
    {
      assert key(s[p + k]) <= key(s[p]);
    }
  }

  lemma {:induction false} FilterSplit<T>(x: T, front: seq<T>, back: seq<T>, key: T -> real, v: real)
    requires forall k :: 0 <= k < |back| ==> key(back[k]) < key(x)
    ensures Filter(front + [x] + back, key, v)
         == Filter(front + back, key, v) + (if key(x) == v then [x] else [])
  {
    if front == [] {
      assert front + [x] + back == [x] + back;
      assert ([x] + back)[1..] == back;
      assert front + back == back;
      if key(x) == v {
        FilterNone(back, key, v);
      }
    } else {
      FilterSplit(x, front[1..], back, key, v);
      assert (front + [x] + back)[1..] == front[1..] + [x] + back;
      assert (front + back)[1..] == front[1..] + back;
    }
  }

  /** Insertion sort from the back: the last element is inserted into the
      sorted prefix, which is what the in-place loop does. */
  function Sort<T>(s: seq<T>, key: T -> real): (r: seq<T>)
    ensures |r| == |s|
  {
    if s == [] then [] else Insert(s[|s| - 1], Sort(s[..|s| - 1], key), key)
  }

  /** Sorting a prefix one element longer inserts that element. */
  lemma SortSnoc<T>(s: seq<T>, key: T -> real, n: nat)
    requires n < |s|
    ensures Sort(s[..n + 1], key) == Insert(s[n], Sort(s[..n], key), key)
  {
    assert s[..n + 1][..n] == s[..n];
  }

  /** The sort only reorders: the output is a permutation of the input. */
  lemma {:induction false} SortPermutation<T>(s: seq<T>, key: T -> real)
    ensures multiset(Sort(s, key)) == multiset(s)
  {
    if s != [] {
      SortPermutation(s[..|s| - 1], key);
      InsertMultiset(s[|s| - 1], Sort(s[..|s| - 1], key), key);
      assert s == s[..|s| - 1] + [s[|s| - 1]];
    }
  }

  /** The output is in descending key order. */
  lemma {:induction false} SortSorted<T>(s: seq<T>, key: T -> real)
    ensures SortedDesc(Sort(s, key), key)
  {
    if s != [] {
      SortSorted(s[..|s| - 1], key);
      InsertSorted(s[|s| - 1], Sort(s[..|s| - 1], key), key);
    }
  }

  /** The sort is stable: for every key value, the elements with that key
      appear in the output in the order they had in the input. */
  lemma {:induction false} SortStable<T>(s: seq<T>, key: T -> real, v: real)
    ensures Filter(Sort(s, key), key, v) == Filter(s, key, v)
  {
    if s != [] {
      var init := s[..|s| - 1];
      SortStable(init, key, v);
      SortSorted(init, key);
      InsertFilter(s[|s| - 1], Sort(init, key), key, v);
      assert s == init + [s[|s| - 1]];
      FilterAppend(init, [s[|s| - 1]], key, v);
    }
  }

  /** An element of the input is an element of the output, and back. */
  lemma SortMembers<T>(s: seq<T>, key: T -> real, y: T)
    ensures y in Sort(s, key) <==> y in s
  {
    SortPermutation(s, key);
    assert y in multiset(Sort(s, key)) <==> y in multiset(s);
  }

  /** Every element not among the first `k` of the sorted sequence has a key no
      larger than any of those first `k`. */
  lemma {:induction false} TopDominatesRest<T>(s: seq<T>, key: T -> real, k: nat, y: T)
    requires k <= |s|
    requires y in s && y !in Sort(s, key)[..k]
    ensures forall i :: 0 <= i < k ==> key(Sort(s, key)[i]) >= key(y)
  {
    var r := Sort(s, key);
    SortMembers(s, key, y);
    SortSorted(s, key);
    var m :| 0 <= m < |r| && r[m] == y;
    assert forall i :: 0 <= i < k ==> r[..k][i] == r[i];
    assert m >= k;
  }

  /** When no key exceeds `m`, the sort puts the elements whose key is `m`
      first, in their input order. */
  lemma MaxFirst<T>(s: seq<T>, key: T -> real, m: real)
    requires forall i :: 0 <= i < |s| ==> key(s[i]) <= m
    ensures |Filter(s, key, m)| <= |Sort(s, key)|
    ensures Sort(s, key)[..|Filter(s, key, m)|] == Filter(s, key, m)
  {
    var r := Sort(s, key);
    SortStable(s, key, m);
    SortSorted(s, key);
    forall i | 0 <= i < |r|
      ensures key(r[i]) <= m
    {
      SortMembers(s, key, r[i]);
    }
    SortedFilterPrefix(r, key, m);
  }

  lemma {:induction false} SortedFilterPrefix<T>(r: seq<T>, key: T -> real, m: real)
    requires SortedDesc(r, key)
    requires forall i :: 0 <= i < |r| ==> key(r[i]) <= m
    ensures r[..|Filter(r, key, m)|] == Filter(r, key, m)
  {
    if r != [] {
      if key(r[0]) == m {
        var t := r[1..];
        assert SortedDesc(t, key) by {
          forall i, j | 0 <= i < j < |t|
            ensures key(t[i]) >= key(t[j])
          {
            assert t[i] == r[i + 1] && t[j] == r[j + 1];
          }
        }
        SortedFilterPrefix(t, key, m);
        assert r == [r[0]] + t;
      } else {
        forall i | 0 <= i < |r|
          ensures key(r[i]) != m
        {
          if i > 0 {
            assert key(r[0]) >= key(r[i]);
          }
        }
        FilterNone(r, key, m);
      }
    }
  }

  predicate DistinctBy<T, K(==)>(s: seq<T>, id: T -> K)
  {
    forall i, j :: 0 <= i < j < |s| ==> id(s[i]) != id(s[j])
  }

  lemma {:induction false} InsertDistinct<T, K>(x: T, s: seq<T>, key: T -> real, id: T -> K)
    requires DistinctBy(s, id)
    requires forall i :: 0 <= i < |s| ==> id(s[i]) != id(x)
    ensures DistinctBy(Insert(x, s, key), id)
  {
    if s != [] && key(s[0]) >= key(x) {
      var t := Insert(x, s[1..], key);
      InsertMultiset(x, s[1..], key);
      InsertDistinct(x, s[1..], key, id);
      forall j | 0 <= j < |t|
        ensures id(s[0]) != id(t[j])
      {
        assert t[j] in multiset(t);
        if t[j] != x {
          assert t[j] in multiset(s[1..]);
          var m :| 0 <= m < |s[1..]| && s[1..][m] == t[j];
          assert s[m + 1] == t[j];
        }
      }
    }
  }

  /** Ids that are pairwise distinct stay pairwise distinct under sorting. */
  lemma {:induction false} SortDistinct<T, K>(s: seq<T>, key: T -> real, id: T -> K)
    requires DistinctBy(s, id)
    ensures DistinctBy(Sort(s, key), id)
  {
    if s != [] {
      var init := s[..|s| - 1];
      var sorted := Sort(init, key);
      SortDistinct(init, key, id);
      forall i | 0 <= i < |sorted|
        ensures id(sorted[i]) != id(s[|s| - 1])
      {
        SortMembers(init, key, sorted[i]);
        var m :| 0 <= m < |init| && init[m] == sorted[i];
        assert s[m] == sorted[i];
      }
      InsertDistinct(s[|s| - 1], sorted, key, id);
    }
  }

  /** `g` applied to every element. */
  function Map<T, U>(s: seq<T>, g: T -> U): (r: seq<U>)
    ensures |r| == |s|
    ensures forall i :: 0 <= i < |s| ==> r[i] == g(s[i])
  {
    seq(|s|, i requires 0 <= i < |s| => g(s[i]))
  }

  /** Sorting commutes with a map that keeps the sort key: sorting the mapped
      elements by the new key gives the mapped sorted elements. */
  lemma {:induction false} InsertMap<T, U>(x: T, s: seq<T>, key: T -> real, g: T -> U, key2: U -> real)
    requires forall y :: key2(g(y)) == key(y)
    ensures Insert(g(x), Map(s, g), key2) == Map(Insert(x, s, key), g)
  {
    if s != [] && key(s[0]) >= key(x) {
      assert Map(s, g)[1..] == Map(s[1..], g);
      InsertMap(x, s[1..], key, g, key2);
    }
  }

  lemma {:induction false} SortMap<T, U>(s: seq<T>, key: T -> real, g: T -> U, key2: U -> real)
    requires forall y :: key2(g(y)) == key(y)
    ensures Sort(Map(s, g), key2) == Map(Sort(s, key), g)
  {
    if s != [] {
      var ms := Map(s, g);
      assert ms[..|ms| - 1] == Map(s[..|s| - 1], g);
      SortMap(s[..|s| - 1], key, g, key2);
      InsertMap(s[|s| - 1], Sort(s[..|s| - 1], key), key, g, key2);
    }
  }

  /** The sum of `f` over `s`. */
  function SumOf<T>(s: seq<T>, f: T -> real): real
  {
    if s == [] then 0.0 else f(s[0]) + SumOf(s[1..], f)
  }

  lemma {:induction false} SumOfAppend<T>(a: seq<T>, b: seq<T>, f: T -> real)
    ensures SumOf(a + b, f) == SumOf(a, f) + SumOf(b, f)
  {
    if a == [] {
      assert a + b == b;
    } else {
      assert (a + b)[1..] == a[1..] + b;
      SumOfAppend(a[1..], b, f);
    }
  }

  /** Two sequences whose elements pair up with equal values have equal sums. */
  lemma {:induction false} SumOfPointwise<T, U>(s: seq<T>, t: seq<U>, f: T -> real, h: U -> real)
    requires |s| == |t|
    requires forall i :: 0 <= i < |s| ==> h(t[i]) == f(s[i])
    ensures SumOf(t, h) == SumOf(s, f)
  {
    if s != [] {
      assert forall i :: 0 <= i < |s| - 1 ==> s[1..][i] == s[i + 1] && t[1..][i] == t[i + 1];
      SumOfPointwise(s[1..], t[1..], f, h);
    }
  }

  lemma {:induction false} SumOfInsert<T>(x: T, s: seq<T>, key: T -> real, f: T -> real)
    ensures SumOf(Insert(x, s, key), f) == f(x) + SumOf(s, f)
  {
    if s != [] && key(s[0]) >= key(x) {
      SumOfInsert(x, s[1..], key, f);
    }
  }

  /** Sorting does not change a sum over the elements. */
  lemma {:induction false} SumOfSort<T>(s: seq<T>, key: T -> real, f: T -> real)
    ensures SumOf(Sort(s, key), f) == SumOf(s, f)
  {
    if s != [] {
      var init := s[..|s| - 1];
      SumOfSort(init, key, f);
      SumOfInsert(s[|s| - 1], Sort(init, key), key, f);
      assert s == init + [s[|s| - 1]];
      SumOfAppend(init, [s[|s| - 1]], f);
    }
  }

  /** One occurrence can be taken off both sides of a multiset equation. */
  lemma MultisetCancel<T>(x: T, m1: multiset<T>, m2: multiset<T>)
    requires multiset{x} + m1 == multiset{x} + m2
    ensures m1 == m2
  {
    forall y
      ensures m1[y] == m2[y]
    {
      assert (multiset{x} + m1)[y] == (multiset{x} + m2)[y];
    }
  }

  /** A sum does not depend on the order of its terms. */
  lemma {:induction false} SumOfPermutation<T>(a: seq<T>, b: seq<T>, f: T -> real)
    requires multiset(a) == multiset(b)
    ensures SumOf(a, f) == SumOf(b, f)
    decreases |a|
  {
    if a == [] {
      assert |multiset(b)| == 0;
    } else {
      var x := a[0];
      assert x in multiset(b);
      var j :| 0 <= j < |b| && b[j] == x;
      var rest := b[..j] + b[j + 1..];
      RemoveAt(b, j, f);
      assert a == [x] + a[1..];
      assert multiset(a) == multiset{x} + multiset(a[1..]);
      MultisetCancel(x, multiset(a[1..]), multiset(rest));
      SumOfPermutation(a[1..], rest, f);
    }
  }

  /** Taking the element at `j` out of `b`: its multiset and its sum lose
      exactly that element. */
  lemma RemoveAt<T>(b: seq<T>, j: nat, f: T -> real)
    requires j < |b|
    ensures multiset(b) == multiset{b[j]} + multiset(b[..j] + b[j + 1..])
    ensures SumOf(b, f) == f(b[j]) + SumOf(b[..j] + b[j + 1..], f)
  {
    MultisetRemoveAt(b, j);
    SumRemoveAt(b, j, f);
  }

  lemma MultisetRemoveAt<T>(b: seq<T>, j: nat)
    requires j < |b|
    ensures multiset(b) == multiset{b[j]} + multiset(b[..j] + b[j + 1..])
  {
    var x, front, back := b[j], b[..j], b[j + 1..];
    assert b == front + [x] + back;
    assert multiset(front + back) == multiset(front) + multiset(back);
  }

  lemma {:induction false} SumRemoveAt<T>(b: seq<T>, j: nat, f: T -> real)
    requires j < |b|
    ensures SumOf(b, f) == f(b[j]) + SumOf(b[..j] + b[j + 1..], f)
  {
    if j == 0 {
      assert b[..0] + b[1..] == b[1..];
    } else {
      var t := b[1..];
      SumRemoveAt(t, j - 1, f);
      var c := b[..j] + b[j + 1..];
      assert t[j - 1] == b[j];
      assert c[0] == b[0] && c[1..] == t[..j - 1] + t[j..];
    }
  }

  /** `Insert` written out as a split: `x` goes after the leading elements
      whose key is at least its own, in front of the first smaller one. */
  lemma {:induction false} InsertAt<T>(x: T, s: seq<T>, j: nat, key: T -> real)
    requires j <= |s|
    requires forall k :: 0 <= k < j ==> key(s[k]) >= key(x)
    requires j < |s| ==> key(s[j]) < key(x)
    ensures Insert(x, s, key) == s[..j] + [x] + s[j..]
  {
    if j == 0 {
      assert s[..0] + [x] + s[0..] == [x] + s;
    } else {
      var t := s[1..];
      assert key(s[0]) >= key(x);
      assert Insert(x, s, key) == [s[0]] + Insert(x, t, key);
      assert j - 1 < |t| ==> key(t[j - 1]) < key(x);
      assert forall k :: 0 <= k < j - 1 ==> key(t[k]) >= key(x);
      InsertAt(x, t, j - 1, key);
      assert t[..j - 1] == s[1..j];
      assert t[j - 1..] == s[j..];
      var u := s[1..j] + [x] + s[j..];
      assert Insert(x, s, key) == [s[0]] + u;
      assert s[..j] == [s[0]] + s[1..j];
      assert [s[0]] + u == s[..j] + [x] + s[j..];
    }
  }

  /** One step of the insertion sort: `a[i]` is moved down past the elements
      of `a[..i]` with a smaller key, which shift up by one; `j` is where it
      lands. */
  method InsertIntoPrefix<T>(a: array<T>, i: nat, key: T -> real) returns (j: nat)
    requires i < a.Length
    modifies a
    ensures j <= i
    ensures a[..i + 1] == old(a[..i])[..j] + [old(a[i])] + old(a[..i])[j..]
    ensures a[i + 1..] == old(a[i + 1..])
    ensures j > 0 ==> key(old(a[j - 1])) >= key(old(a[i]))
    ensures forall k :: j <= k < i ==> key(old(a[k])) < key(old(a[i]))
  {
    ghost var sorted := a[..i];
    var x := a[i];
    j := i;
    while j > 0 && key(a[j - 1]) < key(x)
      invariant 0 <= j <= i
      invariant forall k :: 0 <= k < j ==> a[k] == old(a[k])
      invariant forall k :: j < k <= i ==> a[k] == old(a[k - 1])
      invariant forall k :: i < k < a.Length ==> a[k] == old(a[k])
      invariant forall k :: j <= k < i ==> key(old(a[k])) < key(x)
    {
      a[j] := a[j - 1];
      j := j - 1;
    }
    a[j] := x;
    Assemble(a[..i + 1], sorted, j, x);
  }

  /** The array after the step, read as the old prefix with `x` put in at
      `j`. */
  lemma Assemble<T>(b: seq<T>, s: seq<T>, j: nat, x: T)
    requires j <= |s| && |b| == |s| + 1
    requires forall k :: 0 <= k < j ==> b[k] == s[k]
    requires b[j] == x
    requires forall k :: j < k < |b| ==> b[k] == s[k - 1]
    ensures b == s[..j] + [x] + s[j..]
  {
  }

  /** Where the in-place step puts `x` is where `Insert` does. */
  lemma InsertPlace<T>(x: T, sorted: seq<T>, j: nat, key: T -> real)
    requires SortedDesc(sorted, key) && j <= |sorted|
    requires j > 0 ==> key(sorted[j - 1]) >= key(x)
    requires j < |sorted| ==> key(sorted[j]) < key(x)
    ensures Insert(x, sorted, key) == sorted[..j] + [x] + sorted[j..]
  {
    forall k | 0 <= k < j
      ensures key(sorted[k]) >= key(x)
    {
      assert key(sorted[k]) >= key(sorted[j - 1]);
    }
    InsertAt(x, sorted, j, key);
  }

  /** The in-place insertion sort of `Array.prototype.sort` with a descending
      comparator. */
  method SortInPlace<T>(a: array<T>, key: T -> real)
    modifies a
    ensures a[..] == Sort(old(a[..]), key)
  {
    ghost var s := a[..];
    var i := 0;
    while i < a.Length
      invariant 0 <= i <= a.Length
      invariant a[..i] == Sort(s[..i], key)
      invariant a[i..] == s[i..]
    {
      ghost var sorted := a[..i];
      var j := InsertIntoPrefix(a, i, key);
      SortSorted(s[..i], key);
      InsertPlace(s[i], sorted, j, key);
      assert s[..i + 1][..i] == s[..i];
      i := i + 1;
    }
    assert s[..a.Length] == s;
  }
}
