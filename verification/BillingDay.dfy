/** Rebuilding the monthly rows from the daily ones when the billing day moves. */
module BillingDay {
  import opened Accounting
  import opened Calendar
  import opened Reconciliation
  import opened Metering

  type MonthlyUsage = map<MonthRow, Counters>

  /** The first day that has a row. */
  ghost predicate IsFirst(daily: DailyUsage, first: int) {
    (exists key <- daily :: key.day == first) && (forall key <- daily :: first <= key.day)
  }

  function RowOf(key: UsageKey, billingDay: int): MonthRow
    requires 0 <= key.day
  {
    MonthRow(CycleKey(key.day, billingDay), key.user, key.protocol)
  }

  /** A cycle that starts before the first daily row is only partly covered by daily rows. */
  predicate Covered(month: Month, first: int, billingDay: int) {
    first <= StartDay(month, billingDay)
  }

  /** The month rows that the covered days of these keys make up. */
  ghost predicate RowsOf(rows: set<MonthRow>, keys: set<UsageKey>, first: int, billingDay: int)
    requires forall key <- keys :: 0 <= key.day
  {
    forall row :: row in rows <==>
      Covered(row.month, first, billingDay) && exists key <- keys :: RowOf(key, billingDay) == row
  }

  function Part(daily: DailyUsage, keys: set<UsageKey>): DailyUsage {
    map key <- daily.Keys * keys :: daily[key]
  }

  /** Each collected total is that of the days taken so far, and partly covered cycles are left out. */
  ghost predicate Collects(totals: MonthlyUsage, daily: DailyUsage, keys: set<UsageKey>, first: int, billingDay: int)
    requires forall key <- keys :: 0 <= key.day
  {
    && RowsOf(totals.Keys, keys, first, billingDay)
    && forall row: MonthRow, dir :: ValidMonth(row.month) && Covered(row.month, first, billingDay) ==>
         Get(MonthValue(totals, row), dir) == CycleTotal(Part(daily, keys), row, billingDay, dir)
  }

  lemma PartGrows(daily: DailyUsage, keys: set<UsageKey>, key: UsageKey, row: MonthRow, billingDay: int, dir: Direction)
    requires key in daily && key !in keys && FIRST_DAY <= key.day && 1 <= billingDay <= 31 && ValidMonth(row.month)
    ensures CycleTotal(Part(daily, keys + {key}), row, billingDay, dir)
         == CycleTotal(Part(daily, keys), row, billingDay, dir) +
             if RowOf(key, billingDay) == row then Get(daily[key], dir) else 0
  {
    var mine := key == UsageKey(key.day, row.user, row.protocol);
    MovedTotal(Part(daily, keys), Part(daily, keys + {key}), row.user, row.protocol, key.day,
               if mine then Get(daily[key], dir) else 0,
               StartDay(row.month, billingDay), StartDay(Next(row.month), billingDay), dir);
    CyclesTile(key.day, billingDay, row.month);
  }

  function Collected(totals: MonthlyUsage, daily: DailyUsage, key: UsageKey, first: int, billingDay: int): MonthlyUsage
    requires key in daily && 0 <= key.day
  {
    var row := RowOf(key, billingDay);
    if !Covered(row.month, first, billingDay) then totals else totals[row := Add(MonthValue(totals, row), daily[key])]
  }

  lemma CollectedValue(totals: MonthlyUsage, daily: DailyUsage, keys: set<UsageKey>, key: UsageKey, first: int,
                       billingDay: int, row: MonthRow, dir: Direction)
    requires key in daily && key !in keys && FIRST_DAY <= key.day && 1 <= billingDay <= 31
    requires ValidMonth(row.month) && Covered(row.month, first, billingDay)
    requires Get(MonthValue(totals, row), dir) == CycleTotal(Part(daily, keys), row, billingDay, dir)
    ensures Get(MonthValue(Collected(totals, daily, key, first, billingDay), row), dir)
         == CycleTotal(Part(daily, keys + {key}), row, billingDay, dir)
  {
    PartGrows(daily, keys, key, row, billingDay, dir);
  }

  lemma CollectStep(totals: MonthlyUsage, daily: DailyUsage, keys: set<UsageKey>, key: UsageKey, first: int,
                    billingDay: int)
    requires forall k <- keys :: FIRST_DAY <= k.day
    requires Collects(totals, daily, keys, first, billingDay)
    requires key in daily && key !in keys && FIRST_DAY <= key.day && 1 <= billingDay <= 31
    ensures Collects(Collected(totals, daily, key, first, billingDay), daily, keys + {key}, first, billingDay)
  {
    forall row: MonthRow, dir | ValidMonth(row.month) && Covered(row.month, first, billingDay)
      ensures Get(MonthValue(Collected(totals, daily, key, first, billingDay), row), dir)
           == CycleTotal(Part(daily, keys + {key}), row, billingDay, dir)
    {
      CollectedValue(totals, daily, keys, key, first, billingDay, row, dir);
    }
    RowsStep(totals.Keys, keys, key, first, billingDay);
  }

  lemma RowsStep(rows: set<MonthRow>, keys: set<UsageKey>, key: UsageKey, first: int, billingDay: int)
    requires (forall k <- keys :: 0 <= k.day) && 0 <= key.day
    requires RowsOf(rows, keys, first, billingDay)
    ensures var row := RowOf(key, billingDay);
      RowsOf(if Covered(row.month, first, billingDay) then rows + {row} else rows, keys + {key}, first, billingDay)
  {
    var row := RowOf(key, billingDay);
    var next := if Covered(row.month, first, billingDay) then rows + {row} else rows;
    forall r ensures r in next <==>
      Covered(r.month, first, billingDay) && exists k <- keys + {key} :: RowOf(k, billingDay) == r
    {
      if exists k <- keys :: RowOf(k, billingDay) == r {
        var k :| k in keys && RowOf(k, billingDay) == r;
        assert k in keys + {key};
      }
      if r == row {
        assert key in keys + {key};
      }
    }
  }

  // --- replacing a span of months ---------------------------------------------------------

  /** Keys compare as text, so a span of months is an interval. */
  ghost predicate InSpan(months: set<Month>, m: Month) {
    exists a <- months, b <- months :: Index(a) <= Index(m) <= Index(b)
  }

  /** The months that are rebuilt: those whose cycle daily rows cover from its first day, and which have such rows. */
  ghost predicate CoveredMonths(months: set<Month>, daily: DailyUsage, first: int, billingDay: int)
    requires OnDates(daily)
  {
    forall m :: m in months <==>
        Covered(m, first, billingDay) && exists key <- daily :: CycleKey(key.day, billingDay) == m
  }

  ghost predicate FromFirst(months: set<Month>, daily: DailyUsage, first: int, billingDay: int)
    requires OnDates(daily)
  {
    if daily == map[] then months == {} else IsFirst(daily, first) && CoveredMonths(months, daily, first, billingDay)
  }

  /** Inside the span a row is the sum of its days, and a stale row without days is gone; outside it nothing changed. */
  ghost predicate RowRebuilt(daily: DailyUsage, monthly: MonthlyUsage, monthly': MonthlyUsage, months: set<Month>,
                             billingDay: int, row: MonthRow)
    requires OnDates(daily)
  {
    if InSpan(months, row.month) then
      && (row in monthly' <==> exists key <- daily :: RowOf(key, billingDay) == row)
      && (ValidMonth(row.month) ==>
          forall dir :: Get(MonthValue(monthly', row), dir) == CycleTotal(daily, row, billingDay, dir))
    else
      (row in monthly' <==> row in monthly) && MonthValue(monthly', row) == MonthValue(monthly, row)
  }

  ghost predicate Rebuilt(daily: DailyUsage, monthly: MonthlyUsage, monthly': MonthlyUsage, months: set<Month>,
                          billingDay: int)
    requires OnDates(daily)
  {
    forall row: MonthRow :: RowRebuilt(daily, monthly, monthly', months, billingDay, row)
  }

  lemma LaterIsCovered(a: Month, m: Month, first: int, billingDay: int)
    requires ValidMonth(a) && ValidMonth(m) && Index(a) <= Index(m) && 1 <= billingDay
    requires Covered(a, first, billingDay)
    ensures Covered(m, first, billingDay)
  {
    if Index(a) < Index(m) {
      StartsGrow(a, m, billingDay);
    } else {
      assert a == m;
    }
  }

  lemma SpanIsCovered(months: set<Month>, first: int, billingDay: int, m: Month)
    requires (forall a <- months :: ValidMonth(a) && Covered(a, first, billingDay)) && 1 <= billingDay <= 31
    requires InSpan(months, m) && ValidMonth(m)
    ensures Covered(m, first, billingDay)
  {
    var a :| a in months && Index(a) <= Index(m);
    LaterIsCovered(a, m, first, billingDay);
  }

  lemma KeyIsMonth(day: nat, billingDay: int)
    requires FIRST_DAY <= day && 1 <= billingDay <= 31
    ensures ValidMonth(CycleKey(day, billingDay))
  {
    DateOfOrdinal(day);
    BoundsAre(DateOf(day), billingDay);
    KeyHoldsDay(DateOf(day), billingDay);
  }

  lemma {:induction false} EmptyTotal(daily: DailyUsage, user: Name, protocol: Name, from: int, until: int,
                                      dir: Direction)
    requires forall key <- daily :: !(from <= key.day < until)
    ensures OwnerTotal(daily, user, protocol, from, until, dir) == 0
    decreases until - from
  {
    if from < until {
      EmptyTotal(daily, user, protocol, from, until - 1, dir);
    }
  }

  lemma DayMakesMonth(daily: DailyUsage, months: set<Month>, first: int, billingDay: int, m: Month, key: UsageKey)
    requires OnDates(daily) && CoveredMonths(months, daily, first, billingDay) && 1 <= billingDay <= 31
    requires ValidMonth(m) && Covered(m, first, billingDay) && key in daily
    requires StartDay(m, billingDay) <= key.day < StartDay(Next(m), billingDay)
    ensures m in months
  {
    CyclesTile(key.day, billingDay, m);
  }

  /** Outside the span a fully covered cycle has no daily row at all. */
  lemma NoDaysOutside(daily: DailyUsage, months: set<Month>, first: int, billingDay: int, row: MonthRow, dir: Direction)
    requires OnDates(daily) && CoveredMonths(months, daily, first, billingDay) && 1 <= billingDay <= 31
    requires ValidMonth(row.month) && Covered(row.month, first, billingDay) && row.month !in months
    ensures CycleTotal(daily, row, billingDay, dir) == 0
  {
    var from, until := StartDay(row.month, billingDay), StartDay(Next(row.month), billingDay);
    forall key | key in daily ensures !(from <= key.day < until) {
      if from <= key.day < until {
        DayMakesMonth(daily, months, first, billingDay, row.month, key);
      }
    }
    EmptyTotal(daily, row.user, row.protocol, from, until, dir);
  }

  lemma NotInSpan(months: set<Month>, m: Month)
    requires !InSpan(months, m)
    ensures m !in months
  {
  }

  lemma RowIsExact(daily: DailyUsage, monthly: MonthlyUsage, monthly': MonthlyUsage, months: set<Month>,
                   first: int, billingDay: int, row: MonthRow, dir: Direction)
    requires OnDates(daily) && CoveredMonths(months, daily, first, billingDay) && 1 <= billingDay <= 31
    requires Rebuilt(daily, monthly, monthly', months, billingDay) && ValidMonth(row.month)
    ensures Get(MonthValue(monthly', row), dir) == CycleTotal(daily, row, billingDay, dir)
       <==> InSpan(months, row.month)
            || Get(MonthValue(monthly, row), dir)
               == if Covered(row.month, first, billingDay) then 0 else CycleTotal(daily, row, billingDay, dir)
  {
    assert RowRebuilt(daily, monthly, monthly', months, billingDay, row);
    if !InSpan(months, row.month) && Covered(row.month, first, billingDay) {
      NotInSpan(months, row.month);
      NoDaysOutside(daily, months, first, billingDay, row, dir);
    }
  }

  /** The order of months. */
  predicate NotLater(a: Month, b: Month) {
    a.year < b.year || (a.year == b.year && a.month <= b.month)
  }

  lemma SpanIsBetween(months: set<Month>, m: Month)
    requires ValidMonth(m) && forall a <- months :: ValidMonth(a)
    ensures InSpan(months, m) <==> exists a <- months, b <- months :: NotLater(a, m) && NotLater(m, b)
  {
    forall a | a in months ensures NotLater(a, m) <==> Index(a) <= Index(m) {
    }
    forall b | b in months ensures NotLater(m, b) <==> Index(m) <= Index(b) {
    }
    if InSpan(months, m) {
      var a, b :| a in months && b in months && Index(a) <= Index(m) <= Index(b);
      assert NotLater(a, m) && NotLater(m, b);
    }
  }

  /** Exactly when a rebuild leaves a month row equal to its days, for every month. Rows of the rewritten span do. Any
      other row is kept as it was, so a cycle that daily rows cover from its first day - it has none - needs an empty
      row, and a cycle that begins before the first daily row needs a row that was right already. */
  lemma RebuildIsExact(daily: DailyUsage, monthly: MonthlyUsage, monthly': MonthlyUsage, months: set<Month>,
                       first: int, billingDay: int, row: MonthRow, dir: Direction)
    requires OnDates(daily) && CoveredMonths(months, daily, first, billingDay) && 1 <= billingDay <= 31
    requires Rebuilt(daily, monthly, monthly', months, billingDay) && ValidMonth(row.month)
    ensures Get(MonthValue(monthly', row), dir) == CycleTotal(daily, row, billingDay, dir)
       <==> (exists a <- months, b <- months :: NotLater(a, row.month) && NotLater(row.month, b))
            || Get(MonthValue(monthly, row), dir)
               == if first <= StartDay(row.month, billingDay) then 0 else CycleTotal(daily, row, billingDay, dir)
  {
    RowIsExact(daily, monthly, monthly', months, first, billingDay, row, dir);
    MonthsAreValid(months, daily, first, billingDay);
    SpanIsBetween(months, row.month);
  }

  // --- the rebuild itself ---------------------------------------------------------------------

  method Bounds(months: set<Month>) returns (low: Month, high: Month)
    requires months != {}
    ensures low in months && high in months
    ensures forall m <- months :: Index(low) <= Index(m) <= Index(high)
  {
    low :| low in months;
    high := low;
    var left := months - {low};
    while left != {}
      invariant low in months && high in months && left <= months
      invariant forall m <- months :: m in left || Index(low) <= Index(m) <= Index(high)
      decreases left
    {
      var m :| m in left;
      if Index(m) < Index(low) {
        low := m;
      }
      if Index(high) < Index(m) {
        high := m;
      }
      left := left - {m};
    }
  }

  method FirstDay(daily: DailyUsage) returns (first: int)
    requires daily != map[]
    ensures IsFirst(daily, first)
  {
    var key :| key in daily;
    var days := set k <- daily.Keys :: k.day;
    assert key.day in days;
    first := Earliest(days);
    forall k | k in daily ensures first <= k.day {
      assert k.day in days;
    }
  }

  lemma NothingRebuilt(daily: DailyUsage, monthly: MonthlyUsage, billingDay: int)
    requires OnDates(daily)
    ensures Rebuilt(daily, monthly, monthly, {}, billingDay)
  {
  }

  method Collect(daily: DailyUsage, first: int, billingDay: int) returns (totals: MonthlyUsage)
    requires OnDates(daily) && 1 <= billingDay <= 31
    ensures Collects(totals, daily, daily.Keys, first, billingDay)
  {
    totals := map[];
    var done, left := {}, daily.Keys;
    NothingCollected(daily, first, billingDay);
    while left != {}
      invariant done !! left && done + left == daily.Keys
      invariant Collects(totals, daily, done, first, billingDay)
      decreases left
    {
      var key :| key in left;
      CollectStep(totals, daily, done, key, first, billingDay);
      var (month, start, end) := CycleBounds(DateOf(key.day), billingDay);
      StartIsClamp(key.day, billingDay);
      if first <= Ordinal(start) {
        var row := MonthRow(month, key.user, key.protocol);
        totals := totals[row := Add(MonthValue(totals, row), daily[key])];
      }
      done, left := done + {key}, left - {key};
    }
  }

  lemma StartIsClamp(day: nat, billingDay: int)
    requires FIRST_DAY <= day && 1 <= billingDay <= 31
    ensures Ordinal(CycleBounds(DateOf(day), billingDay).1) == StartDay(CycleKey(day, billingDay), billingDay)
  {
    DateOfOrdinal(day);
    BoundsAre(DateOf(day), billingDay);
  }

  lemma NothingCollected(daily: DailyUsage, first: int, billingDay: int)
    ensures Collects(map[], daily, {}, first, billingDay)
  {
    forall row: MonthRow, dir ensures CycleTotal(Part(daily, {}), row, billingDay, dir) == 0 {
      EmptyTotal(Part(daily, {}), row.user, row.protocol, StartDay(row.month, billingDay),
                 StartDay(Next(row.month), billingDay), dir);
    }
  }

  function MonthsOf(totals: MonthlyUsage): set<Month> {
    set row <- totals.Keys :: row.month
  }

  lemma MonthsOfTotals(totals: MonthlyUsage, daily: DailyUsage, first: int, billingDay: int)
    requires OnDates(daily) && Collects(totals, daily, daily.Keys, first, billingDay)
    ensures CoveredMonths(MonthsOf(totals), daily, first, billingDay)
  {
    var months := MonthsOf(totals);
    forall m ensures m in months <==>
        Covered(m, first, billingDay) && exists key <- daily :: CycleKey(key.day, billingDay) == m {
      if Covered(m, first, billingDay) && exists key <- daily :: CycleKey(key.day, billingDay) == m {
        var key :| key in daily && CycleKey(key.day, billingDay) == m;
        assert RowOf(key, billingDay) in totals;
      }
    }
  }

  function OutsideSpan(monthly: MonthlyUsage, low: Month, high: Month): MonthlyUsage {
    map row <- monthly | !(Index(low) <= Index(row.month) <= Index(high)) :: monthly[row]
  }

  function Spliced(monthly: MonthlyUsage, totals: MonthlyUsage, low: Month, high: Month): MonthlyUsage {
    OutsideSpan(monthly, low, high) + totals
  }

  lemma SplicedRow(monthly: MonthlyUsage, totals: MonthlyUsage, low: Month, high: Month, row: MonthRow)
    requires forall r <- totals :: Index(low) <= Index(r.month) <= Index(high)
    ensures var next := Spliced(monthly, totals, low, high);
      if Index(low) <= Index(row.month) <= Index(high) then
        (row in next <==> row in totals) && MonthValue(next, row) == MonthValue(totals, row)
      else
        (row in next <==> row in monthly) && MonthValue(next, row) == MonthValue(monthly, row)
  {
  }

  lemma PartIsAll(daily: DailyUsage)
    ensures Part(daily, daily.Keys) == daily
  {
  }

  /** One row of the span: collected in full, because every cycle of the span is covered. */
  lemma SplicedInSpan(daily: DailyUsage, totals: MonthlyUsage, months: set<Month>, first: int, billingDay: int,
                      row: MonthRow)
    requires OnDates(daily) && Collects(totals, daily, daily.Keys, first, billingDay) && 1 <= billingDay <= 31
    requires (forall a <- months :: ValidMonth(a) && Covered(a, first, billingDay)) && InSpan(months, row.month)
    ensures row in totals <==> exists key <- daily :: RowOf(key, billingDay) == row
    ensures ValidMonth(row.month) ==>
        forall dir :: Get(MonthValue(totals, row), dir) == CycleTotal(daily, row, billingDay, dir)
  {
    PartIsAll(daily);
    if ValidMonth(row.month) {
      SpanIsCovered(months, first, billingDay, row.month);
    } else {
      forall key | key in daily ensures RowOf(key, billingDay) != row {
        KeyIsMonth(key.day, billingDay);
      }
    }
  }

  lemma MonthsAreValid(months: set<Month>, daily: DailyUsage, first: int, billingDay: int)
    requires OnDates(daily) && CoveredMonths(months, daily, first, billingDay) && 1 <= billingDay <= 31
    ensures forall m <- months :: ValidMonth(m) && Covered(m, first, billingDay)
  {
    forall m | m in months ensures ValidMonth(m) {
      var key :| key in daily && CycleKey(key.day, billingDay) == m;
      KeyIsMonth(key.day, billingDay);
    }
  }

  lemma SpanIsInterval(months: set<Month>, low: Month, high: Month, m: Month)
    requires low in months && high in months && forall a <- months :: Index(low) <= Index(a) <= Index(high)
    ensures InSpan(months, m) <==> Index(low) <= Index(m) <= Index(high)
  {
  }

  lemma SplicedRowRebuilt(daily: DailyUsage, monthly: MonthlyUsage, totals: MonthlyUsage, months: set<Month>,
                          low: Month, high: Month, first: int, billingDay: int, row: MonthRow)
    requires OnDates(daily) && Collects(totals, daily, daily.Keys, first, billingDay) && 1 <= billingDay <= 31
    requires months == MonthsOf(totals) && forall m <- months :: ValidMonth(m) && Covered(m, first, billingDay)
    requires low in months && high in months && forall m <- months :: Index(low) <= Index(m) <= Index(high)
    ensures RowRebuilt(daily, monthly, Spliced(monthly, totals, low, high), months, billingDay, row)
  {
    SpanIsInterval(months, low, high, row.month);
    SplicedRow(monthly, totals, low, high, row);
    if InSpan(months, row.month) {
      SplicedInSpan(daily, totals, months, first, billingDay, row);
    }
  }

  lemma SplicingRebuilds(daily: DailyUsage, monthly: MonthlyUsage, totals: MonthlyUsage, months: set<Month>,
                         low: Month, high: Month, first: int, billingDay: int)
    requires OnDates(daily) && Collects(totals, daily, daily.Keys, first, billingDay) && 1 <= billingDay <= 31
    requires months == MonthsOf(totals) && CoveredMonths(months, daily, first, billingDay)
    requires low in months && high in months && forall m <- months :: Index(low) <= Index(m) <= Index(high)
    ensures Rebuilt(daily, monthly, Spliced(monthly, totals, low, high), months, billingDay)
  {
    MonthsAreValid(months, daily, first, billingDay);
    forall row: MonthRow ensures RowRebuilt(daily, monthly, Spliced(monthly, totals, low, high), months, billingDay,
                                            row) {
      SplicedRowRebuilt(daily, monthly, totals, months, low, high, first, billingDay, row);
    }
  }

  /** The monthly table rebuilt from the daily one, and the months that were rewritten. */
  method RecomputeMonthlyUsage(daily: DailyUsage, monthly: MonthlyUsage, billingDay: int)
      returns (monthly': MonthlyUsage, months: set<Month>, ghost first: int)
    requires OnDates(daily) && 1 <= billingDay <= 31
    ensures FromFirst(months, daily, first, billingDay)
    ensures Rebuilt(daily, monthly, monthly', months, billingDay)
  {
    NothingRebuilt(daily, monthly, billingDay);
    if daily == map[] {
      return monthly, {}, 0;
    }
    var floor := FirstDay(daily);
    first := floor;
    var totals := Collect(daily, floor, billingDay);
    months := MonthsOf(totals);
    MonthsOfTotals(totals, daily, floor, billingDay);
    if months == {} {
      return monthly, months, first;
    }
    var low, high := Bounds(months);
    SplicingRebuilds(daily, monthly, totals, months, low, high, first, billingDay);
    monthly' := OutsideSpan(monthly, low, high);
    monthly' := monthly' + totals;
  }

  // --- a row that a rebuild does not reach ------------------------------------------------------

  function RowsOn(d: int, e: int): DailyUsage {
    map[UsageKey(d, 0, 0) := Counters(3, 0), UsageKey(e, 0, 0) := Counters(5, 0)]
  }

  /** Two days of the same later cycle, the second in the month after it. */
  function EarlyAndLate(m: Month): DailyUsage {
    RowsOn(StartDay(m, 15), StartDay(Next(m), 10))
  }

  lemma EarlyKeys(m: Month)
    requires ValidMonth(m) && 1 <= m.year
    ensures FIRST_DAY <= StartDay(m, 15) < StartDay(Next(m), 10)
    ensures CycleKey(StartDay(m, 15), 15) == m && CycleKey(StartDay(Next(m), 10), 15) == m
    ensures CycleKey(StartDay(m, 15), 1) == m && CycleKey(StartDay(Next(m), 10), 1) == Next(m)
  {
    OrdinalOfDate(Clamp(m, 15));
    OrdinalOfDate(Clamp(Next(m), 10));
    StartsGrow(m, Next(m), 15);
    NextDays(m);
    NextDays(Next(m));
    CyclesTile(StartDay(m, 15), 15, m);
    CyclesTile(StartDay(Next(m), 10), 15, m);
    CyclesTile(StartDay(m, 15), 1, m);
    CyclesTile(StartDay(Next(m), 10), 1, Next(m));
  }

  lemma OnlyOneMonth(m: Month, months: set<Month>)
    requires ValidMonth(m) && 1 <= m.year && OnDates(EarlyAndLate(m))
    requires CoveredMonths(months, EarlyAndLate(m), StartDay(m, 15), 15)
    ensures forall x <- months :: x == m
  {
    EarlyKeys(m);
    forall x | x in months ensures x == m {
      var key :| key in EarlyAndLate(m) && CycleKey(key.day, 15) == x;
    }
  }

  /** One user's counter, polled. */
  function OneUser(day: nat, uptime: int, c: Counters): PollEvent {
    PollEvent(0, day, Snapshot(uptime, map[0 := c]))
  }

  /** Two polls of one counter that make these rows. */
  function PollsOn(d: nat, e: nat): seq<PollEvent> {
    [OneUser(d, 0, Counters(3, 0)), OneUser(e, 60, Counters(8, 0))]
  }

  function TwoPolls(m: Month): seq<PollEvent>
    requires ValidMonth(m)
  {
    PollsOn(StartDay(m, 15), StartDay(Next(m), 10))
  }

  lemma DailyOfOne(t: Usage, protocol: Name, day: int, s: Snapshot, user: Name)
    requires s.counters.Keys == {user}
    ensures DailyRows(t, protocol, day, s, {user})
         == map[UsageKey(day, user, protocol) :=
                  Add(DayValue(t.daily, UsageKey(day, user, protocol)), Delta(t, protocol, s, user))]
  {
  }

  lemma MonthlyOfOne(t: Usage, protocol: Name, month: Month, s: Snapshot, user: Name)
    requires s.counters.Keys == {user}
    ensures MonthlyRows(t, protocol, month, s, {user})
         == map[MonthRow(month, user, protocol) :=
                  Add(MonthValue(t.monthly, MonthRow(month, user, protocol)), Delta(t, protocol, s, user))]
  {
  }

  /** What one counter's poll adds. */
  lemma RecordedOne(t: Usage, protocol: Name, day: nat, s: Snapshot, user: Name, month: Month)
    requires s.counters.Keys == {user} && month == CycleKey(day, 1)
    ensures var after, delta := Recorded(t, protocol, day, s, 1), Delta(t, protocol, s, user);
      && after.daily == t.daily + map[UsageKey(day, user, protocol) :=
                                        Add(DayValue(t.daily, UsageKey(day, user, protocol)), delta)]
      && after.monthly == t.monthly + map[MonthRow(month, user, protocol) :=
                                            Add(MonthValue(t.monthly, MonthRow(month, user, protocol)), delta)]
      && after.services == t.services[protocol := ServiceRow(s.uptime, day)]
  {
    DailyOfOne(t, protocol, day, s, user);
    MonthlyOfOne(t, protocol, month, s, user);
  }

  lemma PollAppend(t: Usage, polls: seq<PollEvent>, q: PollEvent, billingDay: int)
    ensures AfterPolls(t, polls + [q], billingDay)
         == Recorded(AfterPolls(t, polls, billingDay), q.protocol, q.day, q.snapshot, billingDay)
  {
    assert (polls + [q])[..|polls|] == polls;
  }

  lemma InTurn(t: Usage, p: PollEvent, q: PollEvent, billingDay: int)
    ensures AfterPolls(t, [p, q], billingDay)
         == Recorded(Recorded(t, p.protocol, p.day, p.snapshot, billingDay), q.protocol, q.day, q.snapshot, billingDay)
  {
    assert [p, q] == [p] + [q] && [p] == [] + [p];
    PollAppend(t, [], p, billingDay);
    PollAppend(t, [p], q, billingDay);
  }

  lemma FirstOf(day: nat, s: Snapshot, user: Name, protocol: Name, c: Counters, month: Month)
    requires s.counters == map[user := c] && month == CycleKey(day, 1) && AtMost(ZERO, c)
    ensures var t := Recorded(NO_USAGE, protocol, day, s, 1);
      && t.daily == map[UsageKey(day, user, protocol) := c] && t.monthly.Keys == {MonthRow(month, user, protocol)}
      && t.services == map[protocol := ServiceRow(s.uptime, day)] && Stored(t, protocol, user) == c
  {
    RecordedOne(NO_USAGE, protocol, day, s, user, month);
    StoredAfter(NO_USAGE, protocol, day, s, 1, protocol, user);
  }

  lemma DeltaWithoutRestart(t: Usage, protocol: Name, s: Snapshot, user: Name, first: Counters, c: Counters)
    requires user in s.counters && s.counters[user] == c && AtMost(first, c)
    requires Stored(t, protocol, user) == first && !Restarted(t, protocol, s)
    ensures Delta(t, protocol, s, user) == Counters(c.up - first.up, c.down - first.down)
  {
  }

  lemma SecondOf(t: Usage, day: nat, s: Snapshot, user: Name, protocol: Name, month: Month, delta: Counters)
    requires s.counters.Keys == {user} && month == CycleKey(day, 1) && Delta(t, protocol, s, user) == delta
    requires UsageKey(day, user, protocol) !in t.daily && MonthRow(month, user, protocol) !in t.monthly
    ensures var after := Recorded(t, protocol, day, s, 1);
      && after.daily == t.daily + map[UsageKey(day, user, protocol) := delta]
      && MonthValue(after.monthly, MonthRow(month, user, protocol)) == delta
  {
    var daily, monthly := t.daily, t.monthly;
    RecordedOne(t, protocol, day, s, user, month);
    assert Add(DayValue(daily, UsageKey(day, user, protocol)), delta) == delta;
    assert Add(MonthValue(monthly, MonthRow(month, user, protocol)), delta) == delta;
  }

  lemma SecondAfterFirst(t: Usage, d: nat, e: nat, q: Snapshot, user: Name, protocol: Name, first: Counters,
                         second: Counters, month: Month)
    requires q.counters == map[user := second] && month == CycleKey(e, 1) && d < e && AtMost(first, second)
    requires t.daily == map[UsageKey(d, user, protocol) := first] && MonthRow(month, user, protocol) !in t.monthly
    requires Stored(t, protocol, user) == first && !Restarted(t, protocol, q)
    ensures var delta, after :=
        Counters(second.up - first.up, second.down - first.down), Recorded(t, protocol, e, q, 1);
      && after.daily == map[UsageKey(d, user, protocol) := first] + map[UsageKey(e, user, protocol) := delta]
      && MonthValue(after.monthly, MonthRow(month, user, protocol)) == delta
  {
    DeltaWithoutRestart(t, protocol, q, user, first, second);
    SecondOf(t, e, q, user, protocol, month, Counters(second.up - first.up, second.down - first.down));
  }

  lemma PolledOn(d: nat, e: nat, p: Snapshot, q: Snapshot, user: Name, protocol: Name, first: Counters,
                 second: Counters)
    requires p.counters == map[user := first] && q.counters == map[user := second] && p.uptime <= q.uptime
    requires d < e && CycleKey(d, 1) != CycleKey(e, 1) && AtMost(ZERO, first) && AtMost(first, second)
    ensures var delta := Counters(second.up - first.up, second.down - first.down);
      var t := Recorded(Recorded(NO_USAGE, protocol, d, p, 1), protocol, e, q, 1);
      && t.daily == map[UsageKey(d, user, protocol) := first] + map[UsageKey(e, user, protocol) := delta]
      && MonthValue(t.monthly, MonthRow(CycleKey(e, 1), user, protocol)) == delta
  {
    FirstOf(d, p, user, protocol, first, CycleKey(d, 1));
    SecondAfterFirst(Recorded(NO_USAGE, protocol, d, p, 1), d, e, q, user, protocol, first, second, CycleKey(e, 1));
  }

  lemma TwoPollsOf(d: nat, e: nat, first: Counters, second: Counters)
    requires d < e && CycleKey(d, 1) != CycleKey(e, 1) && AtMost(ZERO, first) && AtMost(first, second)
    ensures var delta := Counters(second.up - first.up, second.down - first.down);
      var t := AfterPolls(NO_USAGE, [OneUser(d, 0, first), OneUser(e, 60, second)], 1);
      && t.daily == map[UsageKey(d, 0, 0) := first] + map[UsageKey(e, 0, 0) := delta]
      && MonthValue(t.monthly, MonthRow(CycleKey(e, 1), 0, 0)) == delta
  {
    var p, q := OneUser(d, 0, first), OneUser(e, 60, second);
    InTurn(NO_USAGE, p, q, 1);
    PolledOn(d, e, p.snapshot, q.snapshot, 0, 0, first, second);
  }

  lemma TwoPollsLeave(d: nat, e: nat, t: Usage, k: Month)
    requires d < e && CycleKey(d, 1) != k && CycleKey(e, 1) == k
    requires t == AfterPolls(NO_USAGE, PollsOn(d, e), 1)
    ensures t.daily == RowsOn(d, e) && MonthValue(t.monthly, MonthRow(k, 0, 0)) == Counters(5, 0)
  {
    var first, second := Counters(3, 0), Counters(8, 0);
    assert PollsOn(d, e) == [OneUser(d, 0, first), OneUser(e, 60, second)];
    TwoPollsOf(d, e, first, second);
    assert t.daily == map[UsageKey(d, 0, 0) := first] + map[UsageKey(e, 0, 0) := Counters(5, 0)];
    assert MonthValue(t.monthly, MonthRow(k, 0, 0)) == Counters(5, 0);
    JoinedRows(d, e);
  }

  lemma JoinedRows(d: int, e: int)
    ensures map[UsageKey(d, 0, 0) := Counters(3, 0)] + map[UsageKey(e, 0, 0) := Counters(5, 0)] == RowsOn(d, e)
  {
  }

  lemma PolledTwice(m: Month)
    requires ValidMonth(m) && 1 <= m.year
    ensures var t := AfterPolls(NO_USAGE, TwoPolls(m), 1);
      t.daily == EarlyAndLate(m) && MonthValue(t.monthly, MonthRow(Next(m), 0, 0)) == Counters(5, 0)
  {
    EarlyKeys(m);
    TwoPollsLeave(StartDay(m, 15), StartDay(Next(m), 10), AfterPolls(NO_USAGE, TwoPolls(m), 1), Next(m));
  }

  /** An all-keys identity fails when the billing day moves past the last polled day. Under billing day 1 a counter
      is polled on the 15th of a month and on the 10th of the next one; then the billing day becomes 15. What was
      polled second now counts for the first month, but the second month keeps its old row as well. */
  lemma StaleRowSurvives(m: Month, monthly': MonthlyUsage, months: set<Month>)
    requires ValidMonth(m) && 1 <= m.year && OnDates(EarlyAndLate(m))
    requires CoveredMonths(months, EarlyAndLate(m), StartDay(m, 15), 15)
    requires Rebuilt(EarlyAndLate(m), AfterPolls(NO_USAGE, TwoPolls(m), 1).monthly, monthly', months, 15)
    ensures AfterPolls(NO_USAGE, TwoPolls(m), 1).daily == EarlyAndLate(m)
    ensures MonthValue(monthly', MonthRow(Next(m), 0, 0)) == Counters(5, 0)
    ensures CycleTotal(EarlyAndLate(m), MonthRow(Next(m), 0, 0), 15, Up) == 0
  {
    PolledTwice(m);
    StaleRowStays(m, AfterPolls(NO_USAGE, TwoPolls(m), 1).monthly, monthly', months);
  }

  lemma StaleRowStays(m: Month, monthly: MonthlyUsage, monthly': MonthlyUsage, months: set<Month>)
    requires ValidMonth(m) && 1 <= m.year && OnDates(EarlyAndLate(m))
    requires CoveredMonths(months, EarlyAndLate(m), StartDay(m, 15), 15)
    requires Rebuilt(EarlyAndLate(m), monthly, monthly', months, 15)
    requires MonthValue(monthly, MonthRow(Next(m), 0, 0)) == Counters(5, 0)
    ensures MonthValue(monthly', MonthRow(Next(m), 0, 0)) == Counters(5, 0)
    ensures CycleTotal(EarlyAndLate(m), MonthRow(Next(m), 0, 0), 15, Up) == 0
  {
    var row := MonthRow(Next(m), 0, 0);
    OnlyOneMonth(m, months);
    assert RowRebuilt(EarlyAndLate(m), monthly, monthly', months, 15, row);
    EarlyKeys(m);
    NextDays(m);
    StartsGrow(m, Next(m), 15);
    NextDays(Next(m));
    StartsGrow(Next(m), Next(Next(m)), 15);
    assert StartDay(Next(m), 10) < StartDay(Next(m), 15);
    EmptyTotal(EarlyAndLate(m), 0, 0, StartDay(Next(m), 15), StartDay(Next(Next(m)), 15), Up);
  }

  // --- a cycle that daily rows cover only in part -------------------------------------------------

  lemma OneDayTotal(day: int, user: Name, protocol: Name, c: Counters, from: int, until: int, dir: Direction)
    ensures OwnerTotal(map[UsageKey(day, user, protocol) := c], user, protocol, from, until, dir)
         == if from <= day < until then Get(c, dir) else 0
  {
    NoUsageTotal(user, protocol, from, until, dir);
    MovedTotal(map[], map[UsageKey(day, user, protocol) := c], user, protocol, day, Get(c, dir), from, until, dir);
  }

  lemma NothingCovered(daily: DailyUsage, months: set<Month>, first: int, billingDay: int)
    requires OnDates(daily) && CoveredMonths(months, daily, first, billingDay)
    requires forall key <- daily :: !Covered(CycleKey(key.day, billingDay), first, billingDay)
    ensures forall m :: !InSpan(months, m)
  {
  }

  /** One poll on the 10th, when the cycle still starts on the 1st. */
  function EarlyPoll(m: Month): seq<PollEvent>
    requires ValidMonth(m)
  {
    [OneUser(StartDay(Next(m), 10), 0, Counters(5, 0))]
  }

  function EarlyRow(m: Month): DailyUsage {
    map[UsageKey(StartDay(Next(m), 10), 0, 0) := Counters(5, 0)]
  }

  lemma PolledOnce(day: nat, c: Counters, k: Month)
    requires AtMost(ZERO, c) && k != CycleKey(day, 1)
    ensures var t := AfterPolls(NO_USAGE, [OneUser(day, 0, c)], 1);
      t.daily == map[UsageKey(day, 0, 0) := c] && MonthRow(k, 0, 0) !in t.monthly
  {
    var p := OneUser(day, 0, c);
    assert [p] == [] + [p];
    PollAppend(NO_USAGE, [], p, 1);
    FirstOf(day, p.snapshot, 0, 0, c, CycleKey(day, 1));
  }

  lemma KeptOutside(daily: DailyUsage, monthly: MonthlyUsage, monthly': MonthlyUsage, months: set<Month>,
                    billingDay: int, row: MonthRow)
    requires OnDates(daily) && Rebuilt(daily, monthly, monthly', months, billingDay) && !InSpan(months, row.month)
    ensures MonthValue(monthly', row) == MonthValue(monthly, row)
  {
    assert RowRebuilt(daily, monthly, monthly', months, billingDay, row);
  }

  /** The identity also fails for a cycle that begins before the first daily row. Under billing day 1 a counter is
      polled once, on the 10th of a month; then the billing day becomes 15. The bytes now belong to the month before,
      which is skipped because no daily row covers its first day, and which never had a row. */
  lemma PartlyCoveredIsSkipped(m: Month, monthly': MonthlyUsage, months: set<Month>)
    requires ValidMonth(m) && 1 <= m.year && OnDates(EarlyRow(m))
    requires CoveredMonths(months, EarlyRow(m), StartDay(Next(m), 10), 15)
    requires Rebuilt(EarlyRow(m), AfterPolls(NO_USAGE, EarlyPoll(m), 1).monthly, monthly', months, 15)
    ensures AfterPolls(NO_USAGE, EarlyPoll(m), 1).daily == EarlyRow(m)
    ensures MonthValue(monthly', MonthRow(m, 0, 0)) == ZERO
    ensures CycleTotal(EarlyRow(m), MonthRow(m, 0, 0), 15, Up) == 5
  {
    PolledEarly(m);
    SkippedStays(m, AfterPolls(NO_USAGE, EarlyPoll(m), 1).monthly, monthly', months);
  }

  lemma PolledEarly(m: Month)
    requires ValidMonth(m) && 1 <= m.year
    ensures var t := AfterPolls(NO_USAGE, EarlyPoll(m), 1); t.daily == EarlyRow(m) && MonthRow(m, 0, 0) !in t.monthly
  {
    EarlyKeys(m);
    PolledOnce(StartDay(Next(m), 10), Counters(5, 0), m);
  }

  lemma SkippedStays(m: Month, monthly: MonthlyUsage, monthly': MonthlyUsage, months: set<Month>)
    requires ValidMonth(m) && 1 <= m.year && OnDates(EarlyRow(m)) && MonthRow(m, 0, 0) !in monthly
    requires CoveredMonths(months, EarlyRow(m), StartDay(Next(m), 10), 15)
    requires Rebuilt(EarlyRow(m), monthly, monthly', months, 15)
    ensures MonthValue(monthly', MonthRow(m, 0, 0)) == ZERO
    ensures CycleTotal(EarlyRow(m), MonthRow(m, 0, 0), 15, Up) == 5
  {
    EarlyKeys(m);
    var day := StartDay(Next(m), 10);
    NothingCovered(EarlyRow(m), months, day, 15);
    KeptOutside(EarlyRow(m), monthly, monthly', months, 15, MonthRow(m, 0, 0));
    EarlyTotal(m, day);
  }

  lemma EarlyTotal(m: Month, day: nat)
    requires ValidMonth(m) && FIRST_DAY <= day && day == StartDay(Next(m), 10) && CycleKey(day, 15) == m
    ensures CycleTotal(EarlyRow(m), MonthRow(m, 0, 0), 15, Up) == 5
  {
    OwnWindow(day, 15);
    OneDayTotal(day, 0, 0, Counters(5, 0), StartDay(m, 15), StartDay(Next(m), 15), Up);
  }
}
