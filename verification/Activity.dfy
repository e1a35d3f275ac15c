/**
 The Activity tab: three tables paged as one list. A page is cut from the first skip+take rows of each
 table, and is the same page that the whole merged history would give.
 */
module Activity {
  import opened Option
  import opened Sorting

  datatype Kind = RideKind | DeliveryKind | BatterySwap

  datatype Filter = All | Rides | Deliveries | Kilowatt

  datatype Item = Item(kind: Kind, id: nat, createdAt: int, ongoing: bool)

  /** One user's rows of each table, as ORDER BY its creation time DESC returns them. */
  datatype Tables = Tables(rides: seq<Item>, deliveries: seq<Item>, swaps: seq<Item>)

  datatype Page = Page(ongoing: seq<Item>, items: seq<Item>, total: nat)

  /** The comparator's key: newest first. */
  function Age(i: Item): int {
    -i.createdAt
  }

  predicate Wants(f: Filter, k: Kind) {
    f.All? || (f.Rides? && k.RideKind?) || (f.Deliveries? && k.DeliveryKind?) || (f.Kilowatt? && k.BatterySwap?)
  }

  function Where(rows: seq<Item>, ongoing: bool): seq<Item> {
    if rows == [] then []
    else (if rows[0].ongoing == ongoing then [rows[0]] else []) + Where(rows[1..], ongoing)
  }

  function FindMany(f: Filter, k: Kind, rows: seq<Item>, ongoing: bool, limit: Option<nat>): seq<Item> {
    if !Wants(f, k) then []
    else if limit.Some? then Take(Where(rows, ongoing), limit.value)
    else Where(rows, ongoing)
  }

  function Fetch(t: Tables, f: Filter, ongoing: bool, limit: Option<nat>): seq<Item> {
    FindMany(f, RideKind, t.rides, ongoing, limit)
    + FindMany(f, DeliveryKind, t.deliveries, ongoing, limit)
    + FindMany(f, BatterySwap, t.swaps, ongoing, limit)
  }

  function CountPast(t: Tables, f: Filter): nat {
    |FindMany(f, RideKind, t.rides, false, None)|
    + |FindMany(f, DeliveryKind, t.deliveries, false, None)|
    + |FindMany(f, BatterySwap, t.swaps, false, None)|
  }

  function List(t: Tables, f: Filter, take: nat, skip: nat): Page {
    Page(Fetch(t, f, true, None),
         Slice(Sort(Age, Fetch(t, f, false, Some(skip + take))), skip, skip + take),
         CountPast(t, f))
  }

  // ---------------------------------------------------------------- the history it stands for

  ghost predicate NewestFirst(t: Tables) {
    Sorted(Age, t.rides) && Sorted(Age, t.deliveries) && Sorted(Age, t.swaps)
  }

  /** Everything past that the filter wants, all of it, newest first. */
  function Whole(t: Tables, f: Filter): seq<Item> {
    Sort(Age, Fetch(t, f, false, None))
  }

  /** The history loses nothing, repeats nothing, is newest first, and has `total` items. */
  lemma WholeIsEverythingPast(t: Tables, f: Filter)
    ensures multiset(Whole(t, f)) == multiset(Fetch(t, f, false, None))
    ensures forall i, j :: 0 <= i < j < |Whole(t, f)| ==> Whole(t, f)[i].createdAt >= Whole(t, f)[j].createdAt
    ensures |Whole(t, f)| == CountPast(t, f)
  {
    SortKeeps(Age, Fetch(t, f, false, None));
    var w := Whole(t, f);
    forall i, j | 0 <= i < j < |w|
      ensures w[i].createdAt >= w[j].createdAt
    {
      assert Age(w[i]) <= Age(w[j]);
    }
  }

  lemma {:induction false} WhereCounts(rows: seq<Item>, ongoing: bool, i: Item)
    ensures multiset(Where(rows, ongoing))[i] == if i.ongoing == ongoing then multiset(rows)[i] else 0
  {
    if rows != [] {
      WhereCounts(rows[1..], ongoing, i);
      assert rows == [rows[0]] + rows[1..];
    }
  }

  /** How often an item is in the tables a filter shows. */
  function Shown(t: Tables, f: Filter, i: Item): nat {
    (if f == All || f == Rides then multiset(t.rides)[i] else 0)
    + (if f == All || f == Deliveries then multiset(t.deliveries)[i] else 0)
    + (if f == All || f == Kilowatt then multiset(t.swaps)[i] else 0)
  }

  lemma FetchCounts(t: Tables, f: Filter, ongoing: bool, i: Item)
    ensures multiset(Fetch(t, f, ongoing, None))[i] == if i.ongoing == ongoing then Shown(t, f, i) else 0
  {
    WhereCounts(t.rides, ongoing, i);
    WhereCounts(t.deliveries, ongoing, i);
    WhereCounts(t.swaps, ongoing, i);
    hide Where;
  }

  /**
   Stated by the tables: the history holds every past item the filter shows as often as the tables do, and every page
   lists the ongoing ones of the same tables in full.
   */
  lemma ListHoldsWhatTablesDo(t: Tables, f: Filter, take: nat, skip: nat, i: Item)
    ensures multiset(Whole(t, f))[i] == if i.ongoing then 0 else Shown(t, f, i)
    ensures multiset(List(t, f, take, skip).ongoing)[i] == if i.ongoing then Shown(t, f, i) else 0
  {
    FetchCounts(t, f, false, i);
    FetchCounts(t, f, true, i);
    WholeIsEverythingPast(t, f);
    hide Fetch, Shown, Whole;
  }

  lemma {:induction false} WhereIn(rows: seq<Item>, ongoing: bool)
    ensures forall i <- Where(rows, ongoing) :: i in rows
  {
    if rows != [] {
      WhereIn(rows[1..], ongoing);
    }
  }

  lemma {:induction false} WhereSorted(rows: seq<Item>, ongoing: bool)
    requires Sorted(Age, rows)
    ensures Sorted(Age, Where(rows, ongoing))
  {
    if rows != [] {
      var rest := Where(rows[1..], ongoing);
      WhereSorted(rows[1..], ongoing);
      WhereIn(rows[1..], ongoing);
      forall i | 0 <= i < |rest|
        ensures Age(rows[0]) <= Age(rest[i])
      {
        assert rest[i] in rest;
        var j :| 0 <= j < |rows[1..]| && rows[1..][j] == rest[i];
        assert rows[j + 1] == rest[i];
      }
    }
  }

  lemma FoundSorted(f: Filter, k: Kind, rows: seq<Item>, limit: Option<nat>)
    requires Sorted(Age, rows)
    ensures Sorted(Age, FindMany(f, k, rows, false, limit))
    ensures limit.Some? ==> FindMany(f, k, rows, false, limit) == Take(FindMany(f, k, rows, false, None), limit.value)
  {
    WhereSorted(rows, false);
  }

  lemma MergeThree(a: seq<Item>, b: seq<Item>, c: seq<Item>)
    requires Sorted(Age, a) && Sorted(Age, b) && Sorted(Age, c)
    ensures Sort(Age, a + b + c) == Merge(Age, Merge(Age, a, b), c)
  {
    SortConcat(Age, a + b, c);
    SortConcat(Age, a, b);
    SortOfSorted(Age, a);
    SortOfSorted(Age, b);
    SortOfSorted(Age, c);
  }

  lemma TakeTwice<T>(s: seq<T>, n: nat)
    ensures Take(Take(s, n), n) == Take(s, n)
  {}

  /** The first n of the whole merge are the first n of the merge of the three first n. */
  lemma FirstOfThree(a: seq<Item>, b: seq<Item>, c: seq<Item>, n: nat)
    requires Sorted(Age, a) && Sorted(Age, b) && Sorted(Age, c)
    ensures Take(Sort(Age, a + b + c), n) == Take(Sort(Age, Take(a, n) + Take(b, n) + Take(c, n)), n)
  {
    var ab, short := Merge(Age, a, b), Merge(Age, Take(a, n), Take(b, n));
    MergeThree(a, b, c);
    MergeThree(Take(a, n), Take(b, n), Take(c, n));
    TakeMerge(Age, a, b, n, n, n);
    TakeMerge(Age, ab, c, n, n, n);
    TakeMerge(Age, short, Take(c, n), n, n, n);
    TakeTwice(c, n);
    hide *;
  }

  /** A page read from the first skip+take rows of each table is that page of the whole history, ties included. */
  lemma PageIsSliceOfWhole(t: Tables, f: Filter, take: nat, skip: nat)
    requires NewestFirst(t)
    ensures List(t, f, take, skip).items == Slice(Whole(t, f), skip, skip + take)
  {
    var n := skip + take;
    FoundSorted(f, RideKind, t.rides, Some(n));
    FoundSorted(f, DeliveryKind, t.deliveries, Some(n));
    FoundSorted(f, BatterySwap, t.swaps, Some(n));
    FoundSorted(f, RideKind, t.rides, None);
    FoundSorted(f, DeliveryKind, t.deliveries, None);
    FoundSorted(f, BatterySwap, t.swaps, None);
    FirstOfThree(FindMany(f, RideKind, t.rides, false, None), FindMany(f, DeliveryKind, t.deliveries, false, None),
                 FindMany(f, BatterySwap, t.swaps, false, None), n);
    SliceOfTakes(Sort(Age, Fetch(t, f, false, Some(n))), Whole(t, f), skip, n);
    hide FindMany, Sort, Take, Slice;
  }

  lemma SliceOfTakes<T>(a: seq<T>, b: seq<T>, from: nat, to: nat)
    requires from <= to && Take(a, to) == Take(b, to)
    ensures Slice(a, from, to) == Slice(b, from, to)
  {
    assert Take(a, from) == Take(Take(a, to), from) && Take(b, from) == Take(Take(b, to), from);
  }

  // ---------------------------------------------------------------- all the pages

  /** The first `pages` pages of one size, one after the other. */
  function Pages(t: Tables, f: Filter, size: nat, pages: nat): seq<Item> {
    if pages == 0 then [] else Pages(t, f, size, pages - 1) + List(t, f, size, (pages - 1) * size).items
  }

  lemma SliceExtends<T>(s: seq<T>, from: nat, to: nat)
    requires from <= to
    ensures Take(s, from) + Slice(s, from, to) == Take(s, to)
  {}

  lemma NextPage(size: nat, pages: nat)
    requires pages > 0
    ensures (pages - 1) * size + size == pages * size && (pages - 1) * size >= 0
  {}

  lemma TakeAll<T>(s: seq<T>, n: nat)
    ensures n >= |s| ==> Take(s, n) == s
    ensures Take(s, 0) == []
  {}

  /** Consecutive pages concatenate to the history: nothing lost between them, nothing shown twice. */
  lemma {:induction false} PagesConcatenate(t: Tables, f: Filter, size: nat, pages: nat)
    requires NewestFirst(t)
    ensures Pages(t, f, size, pages) == Take(Whole(t, f), pages * size)
    ensures pages * size >= CountPast(t, f) ==> Pages(t, f, size, pages) == Whole(t, f)
  {
    hide Whole, CountPast, List, NewestFirst, Take, Slice;
    WholeIsEverythingPast(t, f);
    TakeAll(Whole(t, f), pages * size);
    if pages > 0 {
      var skip := (pages - 1) * size;
      NextPage(size, pages);
      PagesConcatenate(t, f, size, pages - 1);
      PageIsSliceOfWhole(t, f, size, skip);
      SliceExtends(Whole(t, f), skip, skip + size);
    } else {
      TakeAll(Whole(t, f), 0);
    }
  }
}
