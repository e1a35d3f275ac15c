/**
 Array.prototype.sort with a comparator on one integer key: stable. The sort is defined by insertion;
 SortIsTheOnlyOne says that nothing else is sorted and keeps equal keys in order, so any stable sort is this one.
 */
module Sorting {

  predicate Sorted<T>(key: T -> int, s: seq<T>) {
    forall i, j :: 0 <= i < j < |s| ==> key(s[i]) <= key(s[j])
  }

  /** The elements with one key, in their order. */
  function WithKey<T>(key: T -> int, s: seq<T>, k: int): seq<T> {
    if s == [] then [] else (if key(s[0]) == k then [s[0]] else []) + WithKey(key, s[1..], k)
  }

  function Insert<T>(key: T -> int, x: T, s: seq<T>): seq<T> {
    if s == [] || key(x) <= key(s[0]) then [x] + s else [s[0]] + Insert(key, x, s[1..])
  }

  function Sort<T>(key: T -> int, s: seq<T>): seq<T> {
    if s == [] then [] else Insert(key, s[0], Sort(key, s[1..]))
  }

  function Merge<T>(key: T -> int, a: seq<T>, b: seq<T>): seq<T>
    decreases |a| + |b|
  {
    if a == [] then b
    else if b == [] then a
    else if key(a[0]) <= key(b[0]) then [a[0]] + Merge(key, a[1..], b)
    else [b[0]] + Merge(key, a, b[1..])
  }

  /** The first n elements, or all of them. */
  function Take<T>(s: seq<T>, n: nat): seq<T> {
    if n <= |s| then s[..n] else s
  }

  /** slice(from, to) of a JavaScript array. */
  function Slice<T>(s: seq<T>, from: nat, to: nat): seq<T>
    requires from <= to
  {
    Take(s, to)[|Take(s, from)|..]
  }

  // ---------------------------------------------------------------- sorting

  lemma {:induction false} InsertElements<T>(key: T -> int, x: T, s: seq<T>)
    ensures multiset(Insert(key, x, s)) == multiset{x} + multiset(s)
  {
    if s != [] && key(x) > key(s[0]) {
      InsertElements(key, x, s[1..]);
      assert s == [s[0]] + s[1..];
    }
  }

  lemma {:induction false} InsertSorted<T>(key: T -> int, x: T, s: seq<T>)
    requires Sorted(key, s)
    ensures Sorted(key, Insert(key, x, s))
  {
    if s != [] && key(x) > key(s[0]) {
      var rest := Insert(key, x, s[1..]);
      InsertSorted(key, x, s[1..]);
      InsertElements(key, x, s[1..]);
      forall i | 0 <= i < |rest|
        ensures key(s[0]) <= key(rest[i])
      {
        assert rest[i] in multiset(rest);
      }
    }
  }

  lemma WithKeyCons<T>(key: T -> int, x: T, s: seq<T>, k: int)
    ensures WithKey(key, [x] + s, k) == (if key(x) == k then [x] else []) + WithKey(key, s, k)
  {
    assert ([x] + s)[1..] == s;
  }

  lemma {:induction false} InsertWithKey<T>(key: T -> int, x: T, s: seq<T>, k: int)
    ensures WithKey(key, Insert(key, x, s), k) == (if key(x) == k then [x] else []) + WithKey(key, s, k)
  {
    hide WithKey;
    WithKeyCons(key, x, s, k);
    if s != [] && key(x) > key(s[0]) {
      InsertWithKey(key, x, s[1..], k);
      WithKeyCons(key, s[0], Insert(key, x, s[1..]), k);
      WithKeyCons(key, s[0], s[1..], k);
      assert s == [s[0]] + s[1..];
    }
  }

  lemma {:induction false} SortKeeps<T>(key: T -> int, s: seq<T>)
    ensures Sorted(key, Sort(key, s)) && multiset(Sort(key, s)) == multiset(s) && |Sort(key, s)| == |s|
  {
    if s != [] {
      SortKeeps(key, s[1..]);
      InsertElements(key, s[0], Sort(key, s[1..]));
      InsertSorted(key, s[0], Sort(key, s[1..]));
      assert s == [s[0]] + s[1..];
    }
    assert |multiset(Sort(key, s))| == |multiset(s)|;
  }

  lemma SortMember<T>(key: T -> int, s: seq<T>, x: T)
    ensures x in Sort(key, s) <==> x in s
  {
    SortKeeps(key, s);
    assert x in multiset(Sort(key, s)) <==> x in multiset(s);
  }

  /** The head of a sort is a smallest key. */
  lemma SortHead<T>(key: T -> int, s: seq<T>, x: T)
    requires x in s
    ensures Sort(key, s) != [] && Sort(key, s)[0] in s && key(Sort(key, s)[0]) <= key(x)
  {
    SortKeeps(key, s);
    SortMember(key, s, x);
    var r := Sort(key, s);
    SortMember(key, s, r[0]);
    var i :| 0 <= i < |r| && r[i] == x;
  }

  lemma {:induction false} SortIsStable<T>(key: T -> int, s: seq<T>, k: int)
    ensures WithKey(key, Sort(key, s), k) == WithKey(key, s, k)
  {
    if s != [] {
      SortIsStable(key, s[1..], k);
      InsertWithKey(key, s[0], Sort(key, s[1..]), k);
    }
  }

  /** The same elements in the same order, key by key. */
  ghost predicate Agree<T>(key: T -> int, a: seq<T>, b: seq<T>) {
    forall k: int :: WithKey(key, a, k) == WithKey(key, b, k)
  }

  lemma {:induction false} WithKeyIn<T>(key: T -> int, s: seq<T>, x: T)
    requires x in s
    ensures WithKey(key, s, key(x)) != []
  {
    if x != s[0] {
      WithKeyIn(key, s[1..], x);
    }
  }

  lemma {:induction false} InWithKey<T>(key: T -> int, s: seq<T>, k: int)
    requires WithKey(key, s, k) != []
    ensures exists x <- s :: key(x) == k
  {
    if key(s[0]) != k {
      InWithKey(key, s[1..], k);
    }
  }

  lemma SmallestKeyFirst<T>(key: T -> int, a: seq<T>, b: seq<T>)
    requires Sorted(key, a) && Sorted(key, b) && a != [] && b != []
    requires WithKey(key, a, key(a[0])) == WithKey(key, b, key(a[0]))
    ensures key(b[0]) <= key(a[0])
  {
    WithKeyIn(key, a, a[0]);
    InWithKey(key, b, key(a[0]));
  }

  lemma TailsAgree<T>(key: T -> int, a: seq<T>, b: seq<T>)
    requires Agree(key, a, b) && a != [] && b != [] && key(a[0]) == key(b[0])
    ensures a[0] == b[0] && Agree(key, a[1..], b[1..])
  {
    var k := key(a[0]);
    assert WithKey(key, a, k)[0] == a[0] && WithKey(key, b, k)[0] == b[0];
    assert WithKey(key, a, k) == WithKey(key, b, k);
    forall j: int
      ensures WithKey(key, a[1..], j) == WithKey(key, b[1..], j)
    {
      assert WithKey(key, a, j) == WithKey(key, b, j);
      if k == j {
        assert WithKey(key, a, j)[1..] == WithKey(key, a[1..], j);
        assert WithKey(key, b, j)[1..] == WithKey(key, b[1..], j);
      } else {
        assert WithKey(key, a, j) == WithKey(key, a[1..], j);
        assert WithKey(key, b, j) == WithKey(key, b[1..], j);
      }
    }
  }

  lemma AgreeNonEmpty<T>(key: T -> int, a: seq<T>, b: seq<T>)
    requires Agree(key, a, b) && a != []
    ensures b != []
  {
    WithKeyIn(key, a, a[0]);
    assert WithKey(key, a, key(a[0])) == WithKey(key, b, key(a[0]));
  }

  /** Two sorted sequences that agree on every key's elements, in order, are the same sequence. */
  lemma {:induction false} SortedAgreeingIsUnique<T>(key: T -> int, a: seq<T>, b: seq<T>)
    requires Sorted(key, a) && Sorted(key, b) && Agree(key, a, b)
    ensures a == b
  {
    if a == [] {
      if b != [] {
        AgreeNonEmpty(key, b, a);
      }
    } else {
      AgreeNonEmpty(key, a, b);
      assert WithKey(key, a, key(a[0])) == WithKey(key, b, key(a[0]));
      SmallestKeyFirst(key, a, b);
      assert WithKey(key, a, key(b[0])) == WithKey(key, b, key(b[0]));
      SmallestKeyFirst(key, b, a);
      TailsAgree(key, a, b);
      SortedAgreeingIsUnique(key, a[1..], b[1..]);
      assert a == [a[0]] + a[1..] && b == [b[0]] + b[1..];
    }
  }

  /** A stable sort of s can only be Sort(s). */
  lemma SortIsTheOnlyOne<T>(key: T -> int, s: seq<T>, r: seq<T>)
    ensures Sorted(key, r) && Agree(key, r, s) <==> r == Sort(key, s)
  {
    var sorted := Sort(key, s);
    SortKeeps(key, s);
    forall k: int
      ensures WithKey(key, sorted, k) == WithKey(key, s, k)
    {
      SortIsStable(key, s, k);
    }
    if Sorted(key, r) && Agree(key, r, s) {
      assert Agree(key, r, sorted);
      SortedAgreeingIsUnique(key, r, sorted);
    }
  }

  lemma SortOfSorted<T>(key: T -> int, s: seq<T>)
    requires Sorted(key, s)
    ensures Sort(key, s) == s
  {
    SortIsTheOnlyOne(key, s, s);
  }

  // ---------------------------------------------------------------- merging

  lemma {:induction false} MergeInsert<T>(key: T -> int, x: T, a: seq<T>, b: seq<T>)
    requires Sorted(key, a) && Sorted(key, b)
    ensures Merge(key, Insert(key, x, a), b) == Insert(key, x, Merge(key, a, b))
    decreases |a| + |b|
  {
    var xa := Insert(key, x, a);
    if b == [] {
      assert Merge(key, a, b) == a;
    } else if key(xa[0]) <= key(b[0]) {
      if a != [] && key(x) > key(a[0]) {
        assert xa[1..] == Insert(key, x, a[1..]);
        MergeInsert(key, x, a[1..], b);
        assert Merge(key, a, b) == [a[0]] + Merge(key, a[1..], b);
        assert Merge(key, a, b)[1..] == Merge(key, a[1..], b);
      } else {
        assert xa[1..] == a;
      }
    } else {
      MergeInsert(key, x, a, b[1..]);
      assert Merge(key, a, b) == [b[0]] + Merge(key, a, b[1..]);
      assert Merge(key, a, b)[1..] == Merge(key, a, b[1..]);
    }
  }

  /** Sorting a concatenation merges the two sorts, earlier elements first among equals. */
  lemma {:induction false} SortConcat<T>(key: T -> int, a: seq<T>, b: seq<T>)
    ensures Sort(key, a + b) == Merge(key, Sort(key, a), Sort(key, b))
  {
    if a == [] {
      assert a + b == b;
    } else {
      assert (a + b)[0] == a[0] && (a + b)[1..] == a[1..] + b;
      SortConcat(key, a[1..], b);
      SortKeeps(key, a[1..]);
      SortKeeps(key, b);
      MergeInsert(key, a[0], Sort(key, a[1..]), Sort(key, b));
    }
  }

  lemma TakeStep<T>(s: seq<T>, n: nat)
    requires s != [] && n > 0
    ensures Take(s, n) == [s[0]] + Take(s[1..], n - 1)
    ensures Take(s, n) != [] && Take(s, n)[0] == s[0] && Take(s, n)[1..] == Take(s[1..], n - 1)
  {}

  lemma TakeOfTake<T>(s: seq<T>, n: nat, p: nat)
    requires p <= n
    ensures Take(Take(s, n), p) == Take(s, p)
    ensures Take(s, 0) == [] && (s == [] ==> Take(s, n) == [])
  {}

  lemma MergeStep<T>(key: T -> int, a: seq<T>, b: seq<T>)
    requires a != [] && b != []
    ensures var m := Merge(key, a, b);
            m != [] && m[0] == (if key(a[0]) <= key(b[0]) then a[0] else b[0])
            && m[1..] == if key(a[0]) <= key(b[0]) then Merge(key, a[1..], b) else Merge(key, a, b[1..])
  {}

  /** The first n of a merge only need the first n of each side. */
  lemma {:induction false} TakeMerge<T>(key: T -> int, a: seq<T>, b: seq<T>, m: nat, n: nat, p: nat)
    requires p <= m && p <= n
    ensures Take(Merge(key, a, b), p) == Take(Merge(key, Take(a, m), Take(b, n)), p)
    decreases |a| + |b|
  {
    hide Take;
    TakeOfTake(a, m, p);
    TakeOfTake(b, n, p);
    if p == 0 {
      TakeOfTake(Merge(key, a, b), 0, 0);
      TakeOfTake(Merge(key, Take(a, m), Take(b, n)), 0, 0);
    } else if a != [] && b != [] {
      hide Merge;
      var ta, tb := Take(a, m), Take(b, n);
      TakeStep(a, m);
      TakeStep(b, n);
      MergeStep(key, a, b);
      MergeStep(key, ta, tb);
      TakeStep(Merge(key, a, b), p);
      TakeStep(Merge(key, ta, tb), p);
      if key(a[0]) <= key(b[0]) {
        TakeMerge(key, a[1..], b, m - 1, n, p - 1);
      } else {
        TakeMerge(key, a, b[1..], m, n - 1, p - 1);
      }
    }
  }
}
