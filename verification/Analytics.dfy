/** The analytics overview: its UTC window, its daily buckets, its counts by group and its email rates.
    Times are milliseconds since the epoch, dates are day numbers, and arithmetic is exact. */
module Analytics {
  import opened Basics
  import opened DeliveryRow

  // ---------------------------------------------------------------- grouped counts

  /** A row of GROUP BY, or of a bucketed chart. */
  datatype Group<K> = Group(key: K, count: nat)

  function Occurrences<K(==)>(xs: seq<K>, key: K): nat {
    if xs == [] then 0 else Occurrences(xs[..|xs| - 1], key) + (if xs[|xs| - 1] == key then 1 else 0)
  }

  function Total<K>(groups: seq<Group<K>>): nat {
    if groups == [] then 0 else Total(groups[..|groups| - 1]) + groups[|groups| - 1].count
  }

  ghost predicate DistinctKeys<K>(groups: seq<Group<K>>) {
    forall i, j :: 0 <= i < j < |groups| ==> groups[i].key != groups[j].key
  }

  ghost predicate HasKey<K>(groups: seq<Group<K>>, key: K) {
    exists i :: 0 <= i < |groups| && groups[i].key == key
  }

  /** The groups count the elements of xs, all of them, each once. Empty groups are allowed. */
  ghost predicate Groups<K>(groups: seq<Group<K>>, xs: seq<K>) {
    && DistinctKeys(groups)
    && (forall i :: 0 <= i < |groups| ==> groups[i].count == Occurrences(xs, groups[i].key))
    && (forall x :: x in xs ==> HasKey(groups, x))
  }

  /** Grouping loses nothing and counts nothing twice. */
  lemma {:induction false} GroupsConserve<K>(groups: seq<Group<K>>, xs: seq<K>)
    requires Groups(groups, xs)
    ensures Total(groups) == |xs|
  {
    TotalCountsCovered(groups, xs);
    AllCovered(groups, xs);
  }

  /** How many elements of xs have a group among groups. */
  ghost function Covered<K>(groups: seq<Group<K>>, xs: seq<K>): nat {
    if xs == [] then 0 else Covered(groups, xs[..|xs| - 1]) + (if HasKey(groups, xs[|xs| - 1]) then 1 else 0)
  }

  lemma {:induction false} AllCovered<K>(groups: seq<Group<K>>, xs: seq<K>)
    requires forall x :: x in xs ==> HasKey(groups, x)
    ensures Covered(groups, xs) == |xs|
  {
    if xs != [] {
      AllCovered(groups, xs[..|xs| - 1]);
    }
  }

  lemma {:induction false} TotalCountsCovered<K>(groups: seq<Group<K>>, xs: seq<K>)
    requires DistinctKeys(groups)
    requires forall i :: 0 <= i < |groups| ==> groups[i].count == Occurrences(xs, groups[i].key)
    ensures Total(groups) == Covered(groups, xs)
  {
    if groups == [] {
      NoneCovered<K>(xs);
    } else {
      TotalCountsCovered(groups[..|groups| - 1], xs);
      OneMoreGroup(groups, xs);
    }
  }

  lemma {:induction false} NoneCovered<K>(xs: seq<K>)
    ensures Covered([], xs) == 0
  {
    if xs != [] {
      NoneCovered(xs[..|xs| - 1]);
    }
  }

  lemma {:induction false} OneMoreGroup<K>(groups: seq<Group<K>>, xs: seq<K>)
    requires groups != [] && DistinctKeys(groups)
    ensures Covered(groups, xs) == Covered(groups[..|groups| - 1], xs) + Occurrences(xs, groups[|groups| - 1].key)
  {
    if xs != [] {
      var x, rest, last := xs[|xs| - 1], groups[..|groups| - 1], groups[|groups| - 1];
      OneMoreGroup(groups, xs[..|xs| - 1]);
      assert HasKey(rest, x) ==> HasKey(groups, x) && x != last.key by {
        if HasKey(rest, x) {
          var i :| 0 <= i < |rest| && rest[i].key == x;
          assert groups[i].key == x;
        }
      }
      assert last.key == x ==> HasKey(groups, x);
    }
  }

  /** The loops that fill a record of counts, one key per enum value, from the groups a query returned. */
  method FillCounts<K(==)>(zero: map<K, nat>, groups: seq<Group<K>>, ghost xs: seq<K>) returns (counts: map<K, nat>)
    requires Groups(groups, xs)
    requires forall k :: k in zero ==> zero[k] == 0
    requires forall i :: 0 <= i < |groups| ==> groups[i].key in zero
    ensures counts.Keys == zero.Keys
    ensures forall k :: k in counts ==> counts[k] == Occurrences(xs, k)
  {
    counts := zero;
    for i := 0 to |groups|
      invariant counts.Keys == zero.Keys
      invariant forall j :: 0 <= j < i ==> counts[groups[j].key] == Occurrences(xs, groups[j].key)
      invariant forall k :: k in counts && (forall j :: 0 <= j < i ==> groups[j].key != k) ==> counts[k] == 0
    {
      counts := counts[groups[i].key := groups[i].count];
    }
    forall k | k in counts ensures counts[k] == Occurrences(xs, k) {
      if !HasKey(groups, k) {
        AbsentOccursNever(xs, k);
      }
    }
  }

  lemma {:induction false} AbsentOccursNever<K>(xs: seq<K>, key: K)
    requires key !in xs
    ensures Occurrences(xs, key) == 0
  {
    if xs != [] {
      AbsentOccursNever(xs[..|xs| - 1], key);
    }
  }

  // ---------------------------------------------------------------- window and daily volume

  const DAY_MS: int := 24 * 60 * 60 * 1000

  datatype Range = LastWeek | LastMonth | LastQuarter

  function RangeDays(range: Range): nat {
    match range
    case LastWeek => 7
    case LastMonth => 30
    case LastQuarter => 90
  }

  datatype Window = Window(from: int, to: int, days: nat)

  function DayOf(t: int): int {
    t / DAY_MS
  }

  /** getWindow: from the start of today, the other days are taken off in place. */
  method GetWindow(range: Range, now: int) returns (w: Window)
    ensures w == WindowAt(range, now)
    ensures w.days == match range case LastWeek => 7 case LastMonth => 30 case LastQuarter => 90
    ensures w.from <= now == w.to && w.days == RangeDays(range)
    ensures w.from % DAY_MS == 0 && DayOf(w.to) == DayOf(w.from) + w.days - 1
  {
    var days := RangeDays(range);
    var to := now;
    var from := DayOf(to) * DAY_MS;
    from := from - (days - 1) * DAY_MS;
    w := Window(from, to, days);
  }

  function WindowAt(range: Range, now: int): Window {
    Window((DayOf(now) - (RangeDays(range) - 1)) * DAY_MS, now, RangeDays(range))
  }

  /** The days of the stamps that fall in the window. */
  function DaysIn(stamps: seq<int>, w: Window): seq<int> {
    if stamps == [] then []
    else
      var t := stamps[|stamps| - 1];
      DaysIn(stamps[..|stamps| - 1], w) + (if w.from <= t <= w.to then [DayOf(t)] else [])
  }

  /** The stamps of the window, and those of one of its days, by their positions. */
  function InWindow(stamps: seq<int>, w: Window): set<int> {
    set i | 0 <= i < |stamps| && w.from <= stamps[i] && stamps[i] <= w.to
  }

  function OnDay(stamps: seq<int>, w: Window, day: int): set<int> {
    set i | i in InWindow(stamps, w) && stamps[i] / (24 * 60 * 60 * 1000) == day
  }

  /** Each stamp of the window is counted once, on its own day. */
  lemma {:induction false} DaysInCounts(stamps: seq<int>, w: Window, day: int)
    ensures |DaysIn(stamps, w)| == |InWindow(stamps, w)|
    ensures Occurrences(DaysIn(stamps, w), day) == |OnDay(stamps, w, day)|
  {
    if stamps != [] {
      var n := |stamps| - 1;
      var rest, t := stamps[..n], stamps[n];
      DaysInCounts(rest, w, day);
      LastStamp(stamps, w, day);
      OneMore(DaysIn(rest, w), DayOf(t), day);
      assert w.from > t || t > w.to ==> DaysIn(stamps, w) == DaysIn(rest, w);
    }
  }

  lemma {:induction false} OneMore<K>(xs: seq<K>, x: K, key: K)
    ensures Occurrences(xs + [x], key) == Occurrences(xs, key) + if x == key then 1 else 0
  {
    assert (xs + [x])[..|xs|] == xs;
  }

  lemma {:induction false} LastStamp(stamps: seq<int>, w: Window, day: int)
    requires stamps != []
    ensures var n := |stamps| - 1; var rest, t := stamps[..n], stamps[n];
            && n !in InWindow(rest, w)
            && InWindow(stamps, w) == InWindow(rest, w) + (if w.from <= t <= w.to then {n} else {})
            && OnDay(stamps, w, day) == OnDay(rest, w, day) + (if w.from <= t <= w.to && DayOf(t) == day then {n} else {})
  {
  }

  datatype Bucket = Bucket(date: int, created: nat, resolved: nat)

  /** new Map(rows): a later row replaces an earlier one. */
  function TrendMap(rows: seq<Group<int>>): map<int, nat> {
    if rows == [] then map[] else TrendMap(rows[..|rows| - 1])[rows[|rows| - 1].key := rows[|rows| - 1].count]
  }

  function CountOn(trend: map<int, nat>, date: int): nat {
    if date in trend then trend[date] else 0
  }

  function BuildDailyVolume(from: int, days: nat, created: seq<Group<int>>, resolved: seq<Group<int>>): seq<Bucket> {
    seq(days, i => Bucket(DayOf(from + i * DAY_MS), CountOn(TrendMap(created), DayOf(from + i * DAY_MS)),
                          CountOn(TrendMap(resolved), DayOf(from + i * DAY_MS))))
  }

  function CreatedColumn(buckets: seq<Bucket>): seq<Group<int>> {
    seq(|buckets|, i requires 0 <= i < |buckets| => Group(buckets[i].date, buckets[i].created))
  }

  function ResolvedColumn(buckets: seq<Bucket>): seq<Group<int>> {
    seq(|buckets|, i requires 0 <= i < |buckets| => Group(buckets[i].date, buckets[i].resolved))
  }

  lemma {:induction false} TrendMapLooksUp(rows: seq<Group<int>>)
    requires DistinctKeys(rows)
    ensures forall i :: 0 <= i < |rows| ==> rows[i].key in TrendMap(rows) && TrendMap(rows)[rows[i].key] == rows[i].count
    ensures forall d :: d in TrendMap(rows) ==> HasKey(rows, d)
  {
    if rows != [] {
      var rest := rows[..|rows| - 1];
      TrendMapLooksUp(rest);
      forall d | d in TrendMap(rows) ensures HasKey(rows, d) {
        if d != rows[|rows| - 1].key {
          assert d in TrendMap(rest);
          var i :| 0 <= i < |rest| && rest[i].key == d;
          assert rows[i].key == d;
        } else {
          assert rows[|rows| - 1].key == d;
        }
      }
    }
  }

  lemma {:induction false} TrendCounts(rows: seq<Group<int>>, xs: seq<int>, date: int)
    requires Groups(rows, xs)
    ensures CountOn(TrendMap(rows), date) == Occurrences(xs, date)
  {
    TrendMapLooksUp(rows);
    if !HasKey(rows, date) {
      AbsentOccursNever(xs, date);
    }
  }

  lemma {:induction false} DaysAreInWindow(stamps: seq<int>, range: Range, now: int)
    ensures forall d :: d in DaysIn(stamps, WindowAt(range, now)) ==> DayOf(now) - RangeDays(range) < d <= DayOf(now)
  {
    if stamps != [] {
      DaysAreInWindow(stamps[..|stamps| - 1], range, now);
    }
  }

  lemma {:induction false} BucketDates(range: Range, now: int, created: seq<Group<int>>, resolved: seq<Group<int>>, i: nat)
    requires i < RangeDays(range)
    ensures var w := WindowAt(range, now);
            BuildDailyVolume(w.from, w.days, created, resolved)[i].date == DayOf(now) - RangeDays(range) + 1 + i
  {
    var w := WindowAt(range, now);
    assert w.from + i * DAY_MS == (DayOf(now) - RangeDays(range) + 1 + i) * DAY_MS;
  }

  /** One bucket for each day of the window, today last, each with that day's counts; the buckets, the
      rows they were made from, and the tickets in the window all add up to the same totals. */
  lemma {:induction false} DailyVolumeConserves(range: Range, now: int, createdAt: seq<int>, resolvedAt: seq<int>,
                             created: seq<Group<int>>, resolved: seq<Group<int>>)
    requires Groups(created, DaysIn(createdAt, WindowAt(range, now)))
    requires Groups(resolved, DaysIn(resolvedAt, WindowAt(range, now)))
    ensures var w := WindowAt(range, now);
            var v := BuildDailyVolume(w.from, w.days, created, resolved);
            && |v| == RangeDays(range)
            && (forall i :: 0 <= i < |v| ==> v[i].date == DayOf(now) - |v| + 1 + i)
            && (forall i :: 0 <= i < |v| ==> v[i].created == Occurrences(DaysIn(createdAt, w), v[i].date))
            && (forall i :: 0 <= i < |v| ==> v[i].resolved == Occurrences(DaysIn(resolvedAt, w), v[i].date))
            && Total(CreatedColumn(v)) == Total(created) == |DaysIn(createdAt, w)|
            && Total(ResolvedColumn(v)) == Total(resolved) == |DaysIn(resolvedAt, w)|
  {
    var w := WindowAt(range, now);
    var v := BuildDailyVolume(w.from, w.days, created, resolved);
    forall i | 0 <= i < |v|
      ensures v[i].date == DayOf(now) - |v| + 1 + i
      ensures v[i].created == Occurrences(DaysIn(createdAt, w), v[i].date)
      ensures v[i].resolved == Occurrences(DaysIn(resolvedAt, w), v[i].date)
    {
      BucketDates(range, now, created, resolved, i);
      TrendCounts(created, DaysIn(createdAt, w), v[i].date);
      TrendCounts(resolved, DaysIn(resolvedAt, w), v[i].date);
    }
    ColumnGroups(CreatedColumn(v), createdAt, range, now);
    ColumnGroups(ResolvedColumn(v), resolvedAt, range, now);
    GroupsConserve(created, DaysIn(createdAt, w));
    GroupsConserve(resolved, DaysIn(resolvedAt, w));
  }

  lemma {:induction false} ColumnGroups(column: seq<Group<int>>, stamps: seq<int>, range: Range, now: int)
    requires |column| == RangeDays(range)
    requires forall i :: 0 <= i < |column| ==> column[i].key == DayOf(now) - |column| + 1 + i
    requires forall i :: 0 <= i < |column| ==> column[i].count == Occurrences(DaysIn(stamps, WindowAt(range, now)), column[i].key)
    ensures Total(column) == |DaysIn(stamps, WindowAt(range, now))|
  {
    var xs := DaysIn(stamps, WindowAt(range, now));
    DaysAreInWindow(stamps, range, now);
    forall d | d in xs ensures HasKey(column, d) {
      assert column[d - (DayOf(now) - |column| + 1)].key == d;
    }
    GroupsConserve(column, xs);
  }

  // ---------------------------------------------------------------- email health

  const NoDeliveries: map<Status, nat> :=
    map[PENDING := 0, SENDING := 0, SENT := 0, DELAYED := 0, DELIVERED := 0, BOUNCED := 0, COMPLAINED := 0, SUPPRESSED := 0, FAILED := 0]

  datatype EmailHealth = EmailHealth(total: nat, delivered: nat, failed: nat, inFlight: nat,
                                     deliveryRate: Option<nat>, failureRate: Option<nat>)

  /** Math.round(part / whole * 10_000): the rate in hundredths of a percent, halves rounded up. */
  function Hundredths(part: nat, whole: nat): nat
    requires whole > 0
  {
    (20_000 * part + whole) / (2 * whole)
  }

  function BuildEmailHealth(counts: map<Status, nat>): EmailHealth
    requires counts.Keys == NoDeliveries.Keys
  {
    var failed := counts[BOUNCED] + counts[COMPLAINED] + counts[SUPPRESSED] + counts[FAILED];
    var inFlight := counts[PENDING] + counts[SENDING] + counts[SENT] + counts[DELAYED];
    var terminal := counts[DELIVERED] + failed;
    var total := counts[PENDING] + counts[SENDING] + counts[SENT] + counts[DELAYED] + counts[DELIVERED] + counts[BOUNCED] + counts[COMPLAINED] +
                 counts[SUPPRESSED] + counts[FAILED];
    EmailHealth(total, counts[DELIVERED], failed, inFlight,
                if terminal == 0 then None else Some(Hundredths(counts[DELIVERED], terminal)),
                if terminal == 0 then None else Some(Hundredths(failed, terminal)))
  }

  /** h hundredths of a percent are nearest to part out of whole, and the upper of two equally near. */
  predicate NearestHundredth(part: nat, whole: nat, h: int) {
    2 * whole * h - whole <= 20_000 * part < 2 * whole * h + whole
  }

  /** The hundredth nearest to the share, and the upper one of two equally near. */
  lemma {:induction false} HundredthsIsNearest(part: nat, whole: nat, h: int)
    requires whole > 0
    ensures h == Hundredths(part, whole) <==> NearestHundredth(part, whole, h)
  {
    QuotientIs(20_000 * part + whole, 2 * whole, h);
  }

  lemma {:induction false} QuotientIs(a: int, m: int, q: int)
    requires m > 0
    ensures q == a / m <==> m * q <= a < m * q + m
  {
    var d := a / m;
    assert m * d <= a < m * d + m;
    if q < d {
      TimesGrows(m, q, d);
    } else if d < q {
      TimesGrows(m, d, q);
    }
  }

  lemma {:induction false} TimesGrows(m: int, x: int, y: int)
    requires m > 0 && x < y
    ensures m * x + m <= m * y
    decreases y - x
  {
    assert m * (x + 1) == m * x + m;
    if x + 1 < y {
      TimesGrows(m, x + 1, y);
    }
  }

  /** The two rates add up to 100.00, or to 100.01 exactly when both are half way between two hundredths. */
  lemma {:induction false} RatesAddUp(delivered: nat, failed: nat)
    requires delivered + failed > 0
    ensures var terminal := delivered + failed;
            Hundredths(delivered, terminal) + Hundredths(failed, terminal) ==
            if (20_000 * delivered + terminal) % (2 * terminal) == 0 then 10_001 else 10_000
  {
    var t := delivered + failed;
    var m, a := 2 * t, 20_000 * delivered + t;
    var n, e := a / m, a % m;
    assert a == m * n + e;
    assert 20_000 * failed + t == m * 10_001 - a;
    var q := if e == 0 then 10_001 - n else 10_000 - n;
    assert m * q == if e == 0 then m * 10_001 - m * n else m * 10_001 - m * n - m;
    QuotientIs(20_000 * failed + t, m, q);
  }

  lemma {:induction false} InRecord(s: Status)
    ensures s in NoDeliveries
  {
    match s
    case PENDING => case SENDING => case SENT => case DELAYED => case DELIVERED =>
    case BOUNCED => case COMPLAINED => case SUPPRESSED => case FAILED =>
  }

  function Finished(xs: seq<Status>): nat {
    Occurrences(xs, DELIVERED) + Occurrences(xs, BOUNCED) + Occurrences(xs, COMPLAINED) + Occurrences(xs, SUPPRESSED) + Occurrences(xs, FAILED)
  }

  function Unfinished(xs: seq<Status>): nat {
    Occurrences(xs, PENDING) + Occurrences(xs, SENDING) + Occurrences(xs, SENT) + Occurrences(xs, DELAYED)
  }

  lemma {:induction false} StatusesPartition(xs: seq<Status>)
    ensures Finished(xs) + Unfinished(xs) == |xs|
    ensures Finished(xs) > 0 <==> exists i :: 0 <= i < |xs| && Terminal(xs[i])
  {
    if xs != [] {
      var rest, last := xs[..|xs| - 1], xs[|xs| - 1];
      StatusesPartition(rest);
      match last
      case PENDING => case SENDING => case SENT => case DELAYED => case DELIVERED =>
      case BOUNCED => case COMPLAINED => case SUPPRESSED => case FAILED =>
      assert Finished(xs) == Finished(rest) + if Terminal(last) then 1 else 0;
      assert Unfinished(xs) == Unfinished(rest) + if Terminal(last) then 0 else 1;
      if i :| 0 <= i < |rest| && Terminal(rest[i]) {
        assert Terminal(xs[i]);
      }
    }
  }

  /** Health counts every delivery of the window once; a rate exists exactly when something has finished. */
  method EmailHealthOf(groups: seq<Group<Status>>, ghost deliveries: seq<Status>) returns (health: EmailHealth)
    requires Groups(groups, deliveries)
    ensures health.total == |deliveries| == health.delivered + health.failed + health.inFlight
    ensures health.delivered == Occurrences(deliveries, DELIVERED)
    ensures health.delivered + health.failed == Finished(deliveries)
    ensures health.deliveryRate.Some? <==> exists i :: 0 <= i < |deliveries| && Terminal(deliveries[i])
    ensures health.failureRate.Some? <==> health.deliveryRate.Some?
    ensures health.inFlight == Unfinished(deliveries)
    ensures health.deliveryRate.Some? ==>
              var finished := health.delivered + health.failed;
              && NearestHundredth(health.delivered, finished, health.deliveryRate.value)
              && NearestHundredth(health.failed, finished, health.failureRate.value)
    ensures health.deliveryRate.Some? ==> health.deliveryRate.value + health.failureRate.value in {10_000, 10_001}
  {
    forall s ensures s in NoDeliveries {
      InRecord(s);
    }
    var counts := FillCounts(NoDeliveries, groups, deliveries);
    health := BuildEmailHealth(counts);
    StatusesPartition(deliveries);
    if health.delivered + health.failed > 0 {
      RatesAddUp(health.delivered, health.failed);
      HundredthsIsNearest(health.delivered, health.delivered + health.failed, health.deliveryRate.value);
      HundredthsIsNearest(health.failed, health.delivered + health.failed, health.failureRate.value);
    }
  }
}
