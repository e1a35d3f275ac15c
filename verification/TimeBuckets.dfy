/**
 Time buckets of the analytics charts. A bucket's key is what SQL gives a row truncated to the unit; folding
 grouped rows onto the buckets by key is the same as summing every bucket's half-open interval directly.
 Times are milliseconds since 1970, UTC.
 */
module TimeBuckets {
  import opened Option
  import opened Calendar

  datatype Range = Day | SevenDays | Month | SixMonths | Year

  datatype Unit = Hourly | Daily | Monthly

  /** The fields of a key; its text writes them with fixed widths. */
  datatype Key = Key(year: int, month: nat, date: Option<int>, hour: Option<int>)

  datatype Bucket = Bucket(start: int, end: int, key: Key)

  function UnitOf(r: Range): Unit {
    match r
    case Day => Hourly
    case SevenDays => Daily
    case Month => Daily
    case SixMonths => Monthly
    case Year => Monthly
  }

  function CountOf(r: Range): nat {
    match r
    case Day => 24
    case SevenDays => 7
    case Month => 30
    case SixMonths => 6
    case Year => 12
  }

  /** keyFor, from the UTC getters of a time. */
  function KeyFor(u: Unit, t: int): Key {
    var day := t / MS_PER_DAY;
    var m := MonthOf(day);
    Key(m / 12, m % 12 + 1,
        if u.Monthly? then None else Some(day - FirstDay(m) + 1),
        if u.Hourly? then Some((t % MS_PER_DAY) / MS_PER_HOUR) else None)
  }

  /** Date.UTC(year, month, 1) for any month number. */
  function MonthStart(month: int): int {
    FirstDay(month) * MS_PER_DAY
  }

  function StepOf(u: Unit): int {
    if u.Hourly? then MS_PER_HOUR else MS_PER_DAY
  }

  function MonthNow(now: int): int {
    MonthOf(now / MS_PER_DAY)
  }

  method BuildBuckets(r: Range, now: int) returns (buckets: seq<Bucket>)
    ensures buckets == Buckets(r, now)
  {
    var u, count := UnitOf(r), CountOf(r);
    buckets := [];
    hide MonthOf, FirstDay, KeyFor;
    if u.Monthly? {
      var startMonth := MonthStart(MonthNow(now) - (count - 1));
      MonthsAreIndexed(MonthNow(now) - (count - 1));
      for i := 0 to count
        invariant |buckets| == i && forall k :: 0 <= k < i ==> buckets[k] == BucketAt(u, Anchor(r, now) + k)
      {
        var start := MonthStart(MonthNow(startMonth) + i);
        MonthsAreIndexed(MonthNow(startMonth) + i);
        var end := MonthStart(MonthNow(start) + 1);
        buckets := buckets + [Bucket(start, end, KeyFor(u, start))];
      }
    } else {
      var today := (now / MS_PER_DAY) * MS_PER_DAY;
      var anchor := if u.Hourly? then today else today - (count - 1) * MS_PER_DAY;
      for i := 0 to count
        invariant |buckets| == i && forall k :: 0 <= k < i ==> buckets[k] == BucketAt(u, Anchor(r, now) + k)
      {
        StepsAreStarts(u, r, now, i);
        var start, end := anchor + i * StepOf(u), anchor + (i + 1) * StepOf(u);
        buckets := buckets + [Bucket(start, end, KeyFor(u, start))];
      }
    }
  }

  /** [from, to) of the SQL WHERE clause. */
  method RangeWindow(r: Range, now: int) returns (from: int, to: int)
    ensures from == Buckets(r, now)[0].start && to == Buckets(r, now)[CountOf(r) - 1].end
  {
    var buckets := BuildBuckets(r, now);
    from, to := buckets[0].start, buckets[|buckets| - 1].end;
  }

  // ---------------------------------------------------------------- hours, days and months by number

  /** The number of the hour, day or month a time is in. */
  function Index(u: Unit, t: int): int {
    match u
    case Hourly => t / MS_PER_HOUR
    case Daily => t / MS_PER_DAY
    case Monthly => MonthOf(t / MS_PER_DAY)
  }

  /** When it starts. */
  function Start(u: Unit, i: int): int {
    if u.Monthly? then MonthStart(i) else i * StepOf(u)
  }

  /** date_trunc. */
  function Trunc(u: Unit, t: int): int {
    Start(u, Index(u, t))
  }

  function BucketAt(u: Unit, i: int): Bucket {
    Bucket(Start(u, i), Start(u, i + 1), KeyFor(u, Start(u, i)))
  }

  /** The number of the first bucket: midnight today, or count - 1 days or months back. */
  function Anchor(r: Range, now: int): int {
    match UnitOf(r)
    case Hourly => 24 * (now / MS_PER_DAY)
    case Daily => now / MS_PER_DAY - (CountOf(r) - 1)
    case Monthly => MonthNow(now) - (CountOf(r) - 1)
  }

  function Buckets(r: Range, now: int): (b: seq<Bucket>)
    ensures |b| == CountOf(r)
  {
    seq(CountOf(r), i requires 0 <= i < CountOf(r) => BucketAt(UnitOf(r), Anchor(r, now) + i))
  }

  lemma MonthsAreIndexed(month: int)
    ensures MonthNow(MonthStart(month)) == month
  {
    MonthLength(month);
    MonthOfIs(FirstDay(month), month);
    assert MonthStart(month) / MS_PER_DAY == FirstDay(month);
    hide FirstDay, MonthOf;
  }

  lemma StepsAreStarts(u: Unit, r: Range, now: int, i: int)
    requires u == UnitOf(r) && !u.Monthly?
    ensures var today := (now / MS_PER_DAY) * MS_PER_DAY;
            var anchor := if u.Hourly? then today else today - (CountOf(r) - 1) * MS_PER_DAY;
            anchor + i * StepOf(u) == Start(u, Anchor(r, now) + i) && anchor + (i + 1) * StepOf(u) == Start(u, Anchor(r, now) + i + 1)
  {}

  lemma DaysOfTime(t: int, day: int)
    ensures t / MS_PER_DAY >= day <==> t >= day * MS_PER_DAY
  {}

  /** A time is in the unit numbered i exactly from its start up to the next one's. */
  lemma IndexIs(u: Unit, t: int, i: int)
    ensures Index(u, t) == i <==> Start(u, i) <= t < Start(u, i + 1)
  {
    if u.Monthly? {
      hide MonthOf, FirstDay;
      MonthOfIs(t / MS_PER_DAY, i);
      DaysOfTime(t, FirstDay(i));
      DaysOfTime(t, FirstDay(i + 1));
    }
  }

  lemma StartsGrow(u: Unit, i: int)
    ensures Start(u, i) < Start(u, i + 1)
  {
    if u.Monthly? {
      MonthLength(i);
      hide FirstDay;
    }
  }

  lemma StartIsIndexed(u: Unit, i: int)
    ensures Index(u, Start(u, i)) == i
  {
    StartsGrow(u, i);
    IndexIs(u, Start(u, i), i);
    hide Start, Index;
  }

  lemma HoursOfDays(t: int)
    ensures t / MS_PER_HOUR == 24 * (t / MS_PER_DAY) + (t % MS_PER_DAY) / MS_PER_HOUR
    ensures 0 <= (t % MS_PER_DAY) / MS_PER_HOUR < 24
  {
    var day, rest := t / MS_PER_DAY, t % MS_PER_DAY;
    var hour, left := rest / MS_PER_HOUR, rest % MS_PER_HOUR;
    assert t == MS_PER_HOUR * (24 * day + hour) + left && 0 <= left < MS_PER_HOUR;
  }

  /** Two times have one key exactly when they are in the same hour, day or month. */
  lemma KeysAreIndices(u: Unit, s: int, t: int)
    ensures KeyFor(u, s) == KeyFor(u, t) <==> Index(u, s) == Index(u, t)
  {
    hide MonthOf, FirstDay;
    HoursOfDays(s);
    HoursOfDays(t);
    var a, b := MonthOf(s / MS_PER_DAY), MonthOf(t / MS_PER_DAY);
    assert a / 12 == b / 12 && a % 12 == b % 12 <==> a == b;
  }

  /** The key SQL gives a row is keyFor of its time. */
  lemma SqlKeyIsKeyFor(u: Unit, t: int)
    ensures KeyFor(u, Trunc(u, t)) == KeyFor(u, t)
  {
    StartIsIndexed(u, Index(u, t));
    KeysAreIndices(u, Trunc(u, t), t);
    hide KeyFor, Index, Start;
  }

  /** A time has the bucket's key exactly when it is in the bucket's half-open interval. */
  lemma KeyIffInBucket(u: Unit, i: int, t: int)
    ensures KeyFor(u, t) == BucketAt(u, i).key <==> BucketAt(u, i).start <= t < BucketAt(u, i).end
  {
    KeysAreIndices(u, t, Start(u, i));
    StartIsIndexed(u, i);
    IndexIs(u, t, i);
    hide KeyFor, Index, Start;
  }

  function WindowStart(r: Range, now: int): int {
    Buckets(r, now)[0].start
  }

  function WindowEnd(r: Range, now: int): int {
    Buckets(r, now)[CountOf(r) - 1].end
  }

  lemma {:induction false} StartsBetween(u: Unit, i: int, j: int)
    requires i <= j
    ensures Start(u, i) <= Start(u, j)
    decreases j - i
  {
    if i < j {
      StartsGrow(u, j - 1);
      StartsBetween(u, i, j - 1);
    }
    hide Start;
  }

  /** Where the i-th bucket starts and ends, inside the window. */
  lemma Edges(r: Range, now: int, i: nat)
    requires i < CountOf(r)
    ensures var u, a := UnitOf(r), Anchor(r, now);
            && Buckets(r, now)[i] == BucketAt(u, a + i)
            && BucketAt(u, a + i).start == Start(u, a + i) && BucketAt(u, a + i).end == Start(u, a + i + 1)
            && WindowStart(r, now) == Start(u, a) <= Start(u, a + i) < Start(u, a + i + 1) <= Start(u, a + CountOf(r)) == WindowEnd(r, now)
  {
    var u, a := UnitOf(r), Anchor(r, now);
    hide Anchor, Start, KeyFor;
    StartsBetween(u, a, a + i);
    StartsGrow(u, a + i);
    StartsBetween(u, a + i + 1, a + CountOf(r));
    assert a + 0 == a && a + (CountOf(r) - 1) + 1 == a + CountOf(r);
    assert Buckets(r, now)[0] == BucketAt(u, a) && Buckets(r, now)[CountOf(r) - 1] == BucketAt(u, a + (CountOf(r) - 1));
  }

  lemma KeysDiffer(u: Unit, i: int, j: int)
    requires i != j
    ensures BucketAt(u, i).key != BucketAt(u, j).key
  {
    StartIsIndexed(u, i);
    StartIsIndexed(u, j);
    KeysAreIndices(u, Start(u, i), Start(u, j));
    hide KeyFor, Start, Index;
  }

  lemma NowIsInside(r: Range, now: int)
    ensures 0 <= Index(UnitOf(r), now) - Anchor(r, now) < CountOf(r)
  {
    HoursOfDays(now);
    hide MonthOf;
  }

  /** Buckets are non-empty, contiguous from first to last, distinctly keyed, and `now` is in one of them. */
  lemma BucketsTile(r: Range, now: int)
    ensures var b := Buckets(r, now);
            && (forall i :: 0 <= i < |b| ==> b[i].start < b[i].end)
            && (forall i :: 0 <= i < |b| - 1 ==> b[i].end == b[i + 1].start)
            && (forall i, j :: 0 <= i < j < |b| ==> b[i].key != b[j].key)
            && b[0].start == WindowStart(r, now) && b[|b| - 1].end == WindowEnd(r, now)
            && (exists i :: 0 <= i < |b| && b[i].start <= now < b[i].end)
  {
    hide KeyFor, Start, Index, Anchor, BucketAt;
    var b, u, a := Buckets(r, now), UnitOf(r), Anchor(r, now);
    forall i | 0 <= i < |b|
      ensures b[i].start < b[i].end && (i < |b| - 1 ==> b[i].end == b[i + 1].start)
    {
      Edges(r, now, i);
      if i < |b| - 1 {
        Edges(r, now, i + 1);
      }
    }
    forall i, j | 0 <= i < j < |b|
      ensures b[i].key != b[j].key
    {
      KeysDiffer(u, a + i, a + j);
    }
    NowIsInside(r, now);
    var current := Index(u, now) - a;
    Edges(r, now, current);
    IndexIs(u, now, a + current);
    assert b[current].start <= now < b[current].end;
  }

  /**
   The buckets are said to end at the current hour, day or month. They do iff they are not hours, or it is the
   last hour of the day: by the hour they cover all of today, from midnight to midnight, the future included.
   */
  lemma EndsNowIff(r: Range, now: int)
    ensures var last := Buckets(r, now)[CountOf(r) - 1];
            last.start <= now < last.end <==> !UnitOf(r).Hourly? || (now % MS_PER_DAY) / MS_PER_HOUR == 23
    ensures UnitOf(r).Hourly? ==>
              WindowStart(r, now) == now - now % MS_PER_DAY && WindowEnd(r, now) == now - now % MS_PER_DAY + MS_PER_DAY
  {
    hide Start, Index, Anchor, KeyFor, Buckets, CountOf;
    LastIsNowIff(r, now);
    LastBucket(r, now);
    IndexIs(UnitOf(r), now, Anchor(r, now) + CountOf(r) - 1);
    if UnitOf(r).Hourly? {
      HourlyEdges(r, now);
      LastBucket(r, now);
    }
  }

  /** Today by the hour. */
  lemma DayCovers(now: int)
    ensures var b, today := Buckets(Day, now), now - now % 86400000;
            |b| == 24 && b[0].start == today && b[23].end == today + 86400000
  {
    LastBucket(Day, now);
    HourlyEdges(Day, now);
    hide KeyFor, Anchor, Start;
  }

  /** Seven or thirty days, the last of them today. */
  lemma DaysCover(r: Range, now: int)
    requires r.SevenDays? || r.Month?
    ensures var b, today := Buckets(r, now), now - now % 86400000;
            var days := if r.SevenDays? then 7 else 30;
            |b| == days && b[0].start == today - (days - 1) * 86400000 && b[days - 1].end == today + 86400000
  {
    LastBucket(r, now);
    DailyEdges(now, CountOf(r) - 1);
    hide KeyFor, Buckets, Start;
  }

  /** Six or twelve months, the last of them this one. */
  lemma MonthsCover(r: Range, now: int)
    requires r.SixMonths? || r.Year?
    ensures var b, month := Buckets(r, now), MonthOf(now / 86400000);
            var months := if r.SixMonths? then 6 else 12;
            |b| == months && b[0].start == FirstDay(month - (months - 1)) * 86400000 && b[months - 1].end == FirstDay(month + 1) * 86400000
  {
    LastBucket(r, now);
    hide KeyFor, Buckets, FirstDay, MonthOf;
  }

  lemma DailyEdges(now: int, back: int)
    ensures Start(Daily, now / MS_PER_DAY - back) == now - now % 86400000 - back * 86400000
    ensures Start(Daily, now / MS_PER_DAY + 1) == now - now % 86400000 + 86400000
  {}

  /** A key is the calendar date and hour of its time. */
  lemma KeyIsDate(u: Unit, t: int)
    ensures var k, day := KeyFor(u, t), t / 86400000;
            var month := 12 * k.year + k.month - 1;
            && 1 <= k.month <= 12 && FirstDay(month) <= day < FirstDay(month + 1)
            && (k.date.Some? <==> !u.Monthly?) && (k.hour.Some? <==> u.Hourly?)
            && (k.date.Some? ==> day == FirstDay(month) + k.date.value - 1)
            && (k.hour.Some? ==> 0 <= k.hour.value < 24 && 0 <= t - day * 86400000 - k.hour.value * 3600000 < 3600000)
  {
    hide MonthOf, FirstDay;
    var day := t / MS_PER_DAY;
    MonthOfHolds(day);
    MonthNumber(MonthOf(day));
    HourOfDay(t);
  }

  lemma MonthNumber(m: int)
    ensures 0 <= m % 12 < 12 && 12 * (m / 12) + (m % 12 + 1) - 1 == m
  {}

  lemma HourOfDay(t: int)
    ensures var hour := (t % MS_PER_DAY) / MS_PER_HOUR;
            0 <= hour < 24 && 0 <= t - (t / MS_PER_DAY) * MS_PER_DAY - hour * MS_PER_HOUR < MS_PER_HOUR
  {}

  lemma LastBucket(r: Range, now: int)
    ensures var u, last := UnitOf(r), Anchor(r, now) + CountOf(r) - 1;
            && Buckets(r, now)[CountOf(r) - 1].start == Start(u, last) && Buckets(r, now)[CountOf(r) - 1].end == Start(u, last + 1)
            && WindowStart(r, now) == Start(u, Anchor(r, now)) && WindowEnd(r, now) == Start(u, last + 1)
  {
    hide Start, Anchor, KeyFor;
    Edges(r, now, CountOf(r) - 1);
  }

  lemma LastIsNowIff(r: Range, now: int)
    ensures Index(UnitOf(r), now) == Anchor(r, now) + CountOf(r) - 1
            <==> !UnitOf(r).Hourly? || (now % MS_PER_DAY) / MS_PER_HOUR == 23
  {
    HoursOfDays(now);
    hide MonthOf;
  }

  lemma HourlyEdges(r: Range, now: int)
    requires UnitOf(r).Hourly?
    ensures Start(Hourly, Anchor(r, now)) == now - now % MS_PER_DAY
    ensures Start(Hourly, Anchor(r, now) + CountOf(r)) == now - now % MS_PER_DAY + MS_PER_DAY
  {
    assert MS_PER_DAY == 24 * MS_PER_HOUR;
    assert now == (now / MS_PER_DAY) * MS_PER_DAY + now % MS_PER_DAY;
  }

  // ---------------------------------------------------------------- folding

  /** What happened: when, and how much. */
  datatype Event = Event(at: int, amount: int)

  datatype Grouped = Grouped(bucket: Option<Key>, value: int)

  function SumBetween(events: seq<Event>, from: int, to: int): int {
    if events == [] then 0
    else (if from <= events[0].at < to then events[0].amount else 0) + SumBetween(events[1..], from, to)
  }

  function SumOfKey(events: seq<Event>, u: Unit, key: Key): int {
    if events == [] then 0
    else (if KeyFor(u, Trunc(u, events[0].at)) == key then events[0].amount else 0) + SumOfKey(events[1..], u, key)
  }

  function Within(events: seq<Event>, from: int, to: int): seq<Event> {
    if events == [] then [] else (if from <= events[0].at < to then [events[0]] else []) + Within(events[1..], from, to)
  }

  /** GROUP BY the truncated key: one row per key that occurs, with the sum of its events; in any order. */
  ghost predicate IsGroupBy(rows: seq<Grouped>, events: seq<Event>, u: Unit) {
    && (forall i :: 0 <= i < |rows| ==> rows[i].bucket.Some? && rows[i].value == SumOfKey(events, u, rows[i].bucket.value))
    && (forall i, j :: 0 <= i < j < |rows| ==> rows[i].bucket != rows[j].bucket)
    && (forall e <- events :: exists i :: 0 <= i < |rows| && rows[i].bucket == Some(KeyFor(u, Trunc(u, e.at))))
  }

  function ByKey(rows: seq<Grouped>): map<Key, int>
    decreases |rows|
  {
    if rows == [] then map[]
    else
      var last := rows[|rows| - 1];
      if last.bucket.Some? then ByKey(rows[..|rows| - 1])[last.bucket.value := last.value] else ByKey(rows[..|rows| - 1])
  }

  function Lookup(byKey: map<Key, int>, key: Key): int {
    if key in byKey then byKey[key] else 0
  }

  /** foldSeries: the value of each bucket, oldest first. */
  method FoldSeries(r: Range, rows: seq<Grouped>, now: int) returns (values: seq<int>)
    ensures |values| == CountOf(r)
    ensures forall i :: 0 <= i < |values| ==> values[i] == Lookup(ByKey(rows), Buckets(r, now)[i].key)
  {
    var byKey: map<Key, int> := map[];
    for k := 0 to |rows|
      invariant byKey == ByKey(rows[..k])
    {
      assert rows[..k + 1][..k] == rows[..k];
      if rows[k].bucket.Some? {
        byKey := byKey[rows[k].bucket.value := rows[k].value];
      }
    }
    assert rows[..|rows|] == rows;
    var buckets := BuildBuckets(r, now);
    values := [];
    for i := 0 to |buckets|
      invariant |values| == i
      invariant forall j :: 0 <= j < i ==> values[j] == Lookup(byKey, buckets[j].key)
    {
      values := values + [Lookup(byKey, buckets[i].key)];
    }
  }

  lemma {:induction false} ByKeyHolds(rows: seq<Grouped>, key: Key)
    ensures key in ByKey(rows) <==> exists i :: 0 <= i < |rows| && rows[i].bucket == Some(key)
    ensures key in ByKey(rows) ==> exists i :: 0 <= i < |rows| && rows[i] == Grouped(Some(key), ByKey(rows)[key])
    decreases |rows|
  {
    if rows != [] {
      ByKeyHolds(rows[..|rows| - 1], key);
    }
  }

  lemma {:induction false} NoSuchKey(events: seq<Event>, u: Unit, key: Key)
    requires forall e <- events :: KeyFor(u, Trunc(u, e.at)) != key
    ensures SumOfKey(events, u, key) == 0
  {
    if events != [] {
      assert events[0] in events;
      NoSuchKey(events[1..], u, key);
    }
    hide KeyFor, Trunc;
  }

  /** However SQL orders the groups, looking a key up gives the sum of that key's events. */
  lemma LookupIsSum(rows: seq<Grouped>, events: seq<Event>, u: Unit, key: Key)
    requires IsGroupBy(rows, events, u)
    ensures Lookup(ByKey(rows), key) == SumOfKey(events, u, key)
  {
    hide KeyFor, Trunc;
    ByKeyHolds(rows, key);
    if key !in ByKey(rows) {
      forall e <- events
        ensures KeyFor(u, Trunc(u, e.at)) != key
      {
        assert forall i :: 0 <= i < |rows| ==> rows[i].bucket != Some(key);
      }
      NoSuchKey(events, u, key);
    }
    hide ByKey;
  }

  lemma {:induction false} KeySumIsIntervalSum(events: seq<Event>, u: Unit, i: int)
    ensures SumOfKey(events, u, BucketAt(u, i).key) == SumBetween(events, BucketAt(u, i).start, BucketAt(u, i).end)
  {
    hide KeyFor, Trunc, Start;
    if events != [] {
      SqlKeyIsKeyFor(u, events[0].at);
      KeyIffInBucket(u, i, events[0].at);
      KeySumIsIntervalSum(events[1..], u, i);
    }
    hide BucketAt;
  }

  lemma {:induction false} WithinKeepsSums(events: seq<Event>, from: int, to: int, a: int, b: int)
    requires from <= a && b <= to
    ensures SumBetween(Within(events, from, to), a, b) == SumBetween(events, a, b)
  {
    if events != [] {
      WithinKeepsSums(events[1..], from, to, a, b);
      var rest := Within(events[1..], from, to);
      assert ([events[0]] + rest)[1..] == rest && [] + rest == rest;
    }
  }

  /**
   Grouping by the truncated key in SQL and folding by key gives each bucket exactly the sum of the events
   in its half-open interval, month and year ends included.
   */
  lemma FoldIsDirectSum(r: Range, now: int, events: seq<Event>, rows: seq<Grouped>, i: nat)
    requires i < CountOf(r)
    requires IsGroupBy(rows, Within(events, WindowStart(r, now), WindowEnd(r, now)), UnitOf(r))
    ensures Lookup(ByKey(rows), Buckets(r, now)[i].key) == SumBetween(events, Buckets(r, now)[i].start, Buckets(r, now)[i].end)
  {
    hide *;
    var u, a := UnitOf(r), Anchor(r, now);
    var inside := Within(events, WindowStart(r, now), WindowEnd(r, now));
    Edges(r, now, i);
    LookupIsSum(rows, inside, u, Buckets(r, now)[i].key);
    KeySumIsIntervalSum(inside, u, a + i);
    WithinKeepsSums(events, WindowStart(r, now), WindowEnd(r, now), Start(u, a + i), Start(u, a + i + 1));
  }

  lemma {:induction false} SumsAdd(events: seq<Event>, a: int, b: int, c: int)
    requires a <= b <= c
    ensures SumBetween(events, a, b) + SumBetween(events, b, c) == SumBetween(events, a, c)
  {
    if events != [] {
      SumsAdd(events[1..], a, b, c);
    }
  }

  function Total(values: seq<int>): int
    decreases |values|
  {
    if values == [] then 0 else Total(values[..|values| - 1]) + values[|values| - 1]
  }

  lemma {:induction false} PrefixTotal(r: Range, now: int, events: seq<Event>, values: seq<int>, n: nat)
    requires n <= |values| == CountOf(r)
    requires forall i :: 0 <= i < |values| ==> values[i] == SumBetween(events, Buckets(r, now)[i].start, Buckets(r, now)[i].end)
    ensures Total(values[..n]) == SumBetween(events, WindowStart(r, now), Start(UnitOf(r), Anchor(r, now) + n))
  {
    hide Anchor, Start, WindowStart, WindowEnd, BucketAt, SumBetween;
    var u, a := UnitOf(r), Anchor(r, now);
    if n == 0 {
      Edges(r, now, 0);
      EmptyInterval(events, WindowStart(r, now));
    } else {
      PrefixTotal(r, now, events, values, n - 1);
      assert values[..n][..n - 1] == values[..n - 1];
      Edges(r, now, n - 1);
      assert a + (n - 1) + 1 == a + n;
      SumsAdd(events, WindowStart(r, now), Start(u, a + (n - 1)), Start(u, a + n));
    }
  }

  lemma {:induction false} EmptyInterval(events: seq<Event>, a: int)
    ensures SumBetween(events, a, a) == 0
  {
    if events != [] {
      EmptyInterval(events[1..], a);
    }
  }

  /** The chart's total is the window's: nothing is lost at an edge or counted twice. */
  lemma FoldKeepsTotal(r: Range, now: int, events: seq<Event>, rows: seq<Grouped>, values: seq<int>)
    requires IsGroupBy(rows, Within(events, WindowStart(r, now), WindowEnd(r, now)), UnitOf(r))
    requires |values| == CountOf(r) && forall i :: 0 <= i < |values| ==> values[i] == Lookup(ByKey(rows), Buckets(r, now)[i].key)
    ensures Total(values) == SumBetween(events, WindowStart(r, now), WindowEnd(r, now))
  {
    hide IsGroupBy, Lookup, ByKey, Anchor, Start, SumBetween, Buckets, Within, WindowStart, WindowEnd;
    forall i | 0 <= i < |values|
      ensures values[i] == SumBetween(events, Buckets(r, now)[i].start, Buckets(r, now)[i].end)
    {
      FoldIsDirectSum(r, now, events, rows, i);
    }
    PrefixTotal(r, now, events, values, CountOf(r));
    assert values[..CountOf(r)] == values;
    Edges(r, now, 0);
  }

  // ---------------------------------------------------------------- cumulative growth

  /** How many were created before a time: one of each event. */
  function CountBefore(created: seq<int>, t: int): nat {
    if created == [] then 0 else (if created[0] < t then 1 else 0) + CountBefore(created[1..], t)
  }

  function Ones(created: seq<int>): seq<Event> {
    seq(|created|, i requires 0 <= i < |created| => Event(created[i], 1))
  }

  lemma {:induction false} CountIsSum(created: seq<int>, a: int, b: int)
    requires a <= b
    ensures CountBefore(created, a) + SumBetween(Ones(created), a, b) == CountBefore(created, b)
  {
    if created != [] {
      CountIsSum(created[1..], a, b);
      assert Ones(created)[1..] == Ones(created[1..]);
    }
  }

  datatype Growth = Growth(drivers: int, riders: int)

  /** userGrowth: running totals over the buckets, on top of those created before the window. */
  method UserGrowth(r: Range, now: int, driversBefore: int, ridersBefore: int, newDrivers: map<Key, int>, newRiders: map<Key, int>)
    returns (growth: seq<Growth>)
    ensures |growth| == CountOf(r)
    ensures forall i :: 0 <= i < |growth| ==>
              && growth[i].drivers == driversBefore + SumOfLookups(newDrivers, Buckets(r, now), i + 1)
              && growth[i].riders == ridersBefore + SumOfLookups(newRiders, Buckets(r, now), i + 1)
  {
    var buckets := BuildBuckets(r, now);
    var drivers, riders := driversBefore, ridersBefore;
    growth := [];
    for i := 0 to |buckets|
      invariant |growth| == i
      invariant drivers == driversBefore + SumOfLookups(newDrivers, buckets, i)
      invariant riders == ridersBefore + SumOfLookups(newRiders, buckets, i)
      invariant forall j :: 0 <= j < i ==>
                  && growth[j].drivers == driversBefore + SumOfLookups(newDrivers, buckets, j + 1)
                  && growth[j].riders == ridersBefore + SumOfLookups(newRiders, buckets, j + 1)
    {
      drivers := drivers + Lookup(newDrivers, buckets[i].key);
      riders := riders + Lookup(newRiders, buckets[i].key);
      growth := growth + [Growth(drivers, riders)];
    }
  }

  function SumOfLookups(byKey: map<Key, int>, buckets: seq<Bucket>, n: nat): int
    requires n <= |buckets|
  {
    if n == 0 then 0 else SumOfLookups(byKey, buckets, n - 1) + Lookup(byKey, buckets[n - 1].key)
  }

  /** The running total at each bucket is the number created before that bucket's end. */
  lemma {:induction false} GrowthIsCount(r: Range, now: int, created: seq<int>, rows: seq<Grouped>, n: nat)
    requires n <= CountOf(r)
    requires IsGroupBy(rows, Within(Ones(created), WindowStart(r, now), WindowEnd(r, now)), UnitOf(r))
    ensures CountBefore(created, WindowStart(r, now)) + SumOfLookups(ByKey(rows), Buckets(r, now), n)
         == CountBefore(created, if n == 0 then WindowStart(r, now) else Buckets(r, now)[n - 1].end)
  {
    hide IsGroupBy, ByKey, Lookup, Anchor, Start, KeyFor, WindowStart, WindowEnd, BucketAt, Within, SumBetween, CountBefore;
    var u, a := UnitOf(r), Anchor(r, now);
    if n > 0 {
      GrowthIsCount(r, now, created, rows, n - 1);
      FoldIsDirectSum(r, now, Ones(created), rows, n - 1);
      Edges(r, now, n - 1);
      if n > 1 {
        Edges(r, now, n - 2);
        assert a + (n - 2) + 1 == a + (n - 1);
      }
      CountIsSum(created, Start(u, a + (n - 1)), Start(u, a + (n - 1) + 1));
    }
  }
}
