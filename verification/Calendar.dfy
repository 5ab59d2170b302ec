/** Billing cycles over the proleptic Gregorian calendar, section 3.2.1 of ISO 8601:2004. */
module Calendar {

  datatype Month = Month(year: int, month: int)

  datatype Date = Date(year: int, month: int, day: int)

  predicate Leap(year: int) {
    year % 4 == 0 && (year % 100 != 0 || year % 400 == 0)
  }

  function MonthLength(year: int, month: int): (r: int)
    ensures 28 <= r <= 31
  {
    if month == 2 then (if Leap(year) then 29 else 28)
    else if month == 4 || month == 6 || month == 9 || month == 11 then 30
    else 31
  }

  function Length(m: Month): int {
    MonthLength(m.year, m.month)
  }

  predicate ValidMonth(m: Month) {
    0 <= m.year && 1 <= m.month <= 12
  }

  /** Python's dates begin with year 1. */
  predicate Valid(d: Date) {
    1 <= d.year && 1 <= d.month <= 12 && 1 <= d.day <= MonthLength(d.year, d.month)
  }

  predicate Before(a: Date, b: Date) {
    a.year < b.year || (a.year == b.year && (a.month < b.month || (a.month == b.month && a.day < b.day)))
  }

  function ShiftMonth(year: int, month: int, offset: int): (int, int) {
    var total := year * 12 + (month - 1) + offset;
    (total / 12, total % 12 + 1)
  }

  /** The cycle boundary inside one month, pulled back if the month is short. */
  function ClampBillingDay(year: int, month: int, billingDay: int): Date {
    Date(year, month, if billingDay < MonthLength(year, month) then billingDay else MonthLength(year, month))
  }

  function DayBefore(d: Date): Date {
    if 1 < d.day then d.(day := d.day - 1)
    else
      var (year, month) := ShiftMonth(d.year, d.month, -1);
      Date(year, month, MonthLength(year, month))
  }

  function CycleStart(date: Date, billingDay: int): Date {
    var start := ClampBillingDay(date.year, date.month, billingDay);
    if Before(date, start) then
      var (year, month) := ShiftMonth(date.year, date.month, -1);
      ClampBillingDay(year, month, billingDay)
    else start
  }

  /** The cycle that a date falls in: the month it starts in, which is its key, its first and its last day. */
  function CycleBounds(date: Date, billingDay: int): (Month, Date, Date) {
    var start := CycleStart(date, billingDay);
    var (year, month) := ShiftMonth(start.year, start.month, 1);
    (Month(start.year, start.month), start, DayBefore(ClampBillingDay(year, month, billingDay)))
  }

  // --- months and days as numbers ------------------------------------------------------

  /** The order of keys: zero-padded text compares as this number. */
  function Index(m: Month): int {
    m.year * 12 + m.month - 1
  }

  function Next(m: Month): Month {
    if m.month == 12 then Month(m.year + 1, 1) else Month(m.year, m.month + 1)
  }

  function Previous(m: Month): Month {
    if m.month == 1 then Month(m.year - 1, 12) else Month(m.year, m.month - 1)
  }

  lemma ShiftIsNeighbour(year: int, month: int)
    requires 1 <= month <= 12
    ensures ShiftMonth(year, month, 1) == (Next(Month(year, month)).year, Next(Month(year, month)).month)
    ensures ShiftMonth(year, month, -1) == (Previous(Month(year, month)).year, Previous(Month(year, month)).month)
  {
  }

  /** Days before a month, counted from January of year 0. */
  function DaysBefore(m: Month): nat
    decreases Index(m)
  {
    if !ValidMonth(m) || m == Month(0, 1) then 0 else DaysBefore(Previous(m)) + Length(Previous(m))
  }

  function Ordinal(d: Date): int {
    DaysBefore(Month(d.year, d.month)) + d.day - 1
  }

  lemma {:induction false} DaysBeforeGrows(a: Month, b: Month)
    requires ValidMonth(a) && ValidMonth(b) && Index(a) < Index(b)
    ensures DaysBefore(a) + Length(a) <= DaysBefore(b)
    decreases Index(b)
  {
    if Previous(b) != a {
      DaysBeforeGrows(a, Previous(b));
    }
  }

  lemma NextDays(m: Month)
    requires ValidMonth(m)
    ensures DaysBefore(Next(m)) == DaysBefore(m) + Length(m)
  {
    assert Previous(Next(m)) == m;
  }

  /** Dates are ordered as the days they number. */
  lemma OrdinalOrders(a: Date, b: Date)
    requires Valid(a) && Valid(b)
    ensures Before(a, b) <==> Ordinal(a) < Ordinal(b)
    ensures Ordinal(a) == Ordinal(b) ==> a == b
  {
    var i, j := Month(a.year, a.month), Month(b.year, b.month);
    if Index(i) < Index(j) {
      DaysBeforeGrows(i, j);
    } else if Index(j) < Index(i) {
      DaysBeforeGrows(j, i);
    }
  }

  /** The month that holds a day. */
  function MonthOf(day: nat, from: Month): (r: Month)
    requires ValidMonth(from) && DaysBefore(from) <= day
    ensures ValidMonth(r) && DaysBefore(r) <= day < DaysBefore(r) + Length(r)
    decreases day - DaysBefore(from)
  {
    if day < DaysBefore(from) + Length(from) then from
    else
      NextDays(from);
      MonthOf(day, Next(from))
  }

  function DateOf(day: nat): Date {
    var m := MonthOf(day, Month(0, 1));
    Date(m.year, m.month, day - DaysBefore(m) + 1)
  }

  /** The number of 1 January of year 1. */
  const FIRST_DAY: nat := 366

  lemma YearLength(year: nat)
    ensures DaysBefore(Month(year + 1, 1)) == DaysBefore(Month(year, 1)) + if Leap(year) then 366 else 365
  {
    var m := Month(year, 1);
    for month := 1 to 13
      invariant m == if month <= 12 then Month(year, month) else Month(year + 1, 1)
      invariant DaysBefore(m) == DaysBefore(Month(year, 1)) + DaysInto(year, month)
    {
      NextDays(m);
      m := Next(m);
    }
  }

  /** Days of a year before one of its months. */
  function DaysInto(year: nat, month: int): int {
    if month <= 1 then 0
    else 31 * (month - 1) - (if month <= 2 then 0 else if Leap(year) then 2 else 3)
         - (if month <= 4 then 0 else if month <= 6 then 1 else if month <= 9 then 2 else if month <= 11 then 3 else 4)
  }

  lemma FirstDayIsYearOne()
    ensures DaysBefore(Month(1, 1)) == FIRST_DAY
  {
    YearLength(0);
  }

  lemma EveryFourth(y: nat)
    ensures (y + 4) / 4 - (y + 3) / 4 == if y % 4 == 0 then 1 else 0
  {
  }

  lemma EveryHundredth(y: nat)
    ensures (y + 100) / 100 - (y + 99) / 100 == if y % 100 == 0 then 1 else 0
  {
  }

  lemma EveryFourHundredth(y: nat)
    ensures (y + 400) / 400 - (y + 399) / 400 == if y % 400 == 0 then 1 else 0
  {
  }

  lemma LeapDays(y: nat)
    ensures (if Leap(y) then 1 else 0)
         == (if y % 4 == 0 then 1 else 0) - (if y % 100 == 0 then 1 else 0) + (if y % 400 == 0 then 1 else 0)
  {
    assert y % 400 == 0 ==> y % 100 == 0;
    assert y % 100 == 0 ==> y % 4 == 0;
  }

  /** Days before a year: leap years are every fourth, but not every hundredth, but every four hundredth again. */
  function GregorianDays(year: nat): int {
    365 * year + (year + 3) / 4 - (year + 99) / 100 + (year + 399) / 400
  }

  lemma OneMoreYear(year: nat)
    ensures GregorianDays(year + 1) == GregorianDays(year) + if Leap(year) then 366 else 365
  {
    EveryFourth(year);
    EveryHundredth(year);
    EveryFourHundredth(year);
    LeapDays(year);
  }

  /** The calendar is the Gregorian one. */
  lemma {:induction false} YearsAreGregorian(year: nat)
    ensures DaysBefore(Month(year, 1)) == GregorianDays(year)
  {
    if year > 0 {
      YearsAreGregorian(year - 1);
      YearLength(year - 1);
      OneMoreYear(year - 1);
    }
  }

  /** Numbering days loses nothing. */
  lemma DateOfOrdinal(day: nat)
    requires FIRST_DAY <= day
    ensures Valid(DateOf(day)) && Ordinal(DateOf(day)) == day
  {
    FirstDayIsYearOne();
    var m := MonthOf(day, Month(0, 1));
    if m.year < 1 {
      DaysBeforeGrows(m, Month(1, 1));
    }
  }

  lemma OrdinalFrom(first: Month, d: Date)
    requires ValidMonth(first) && first.year <= d.year && first.month == 1 && Valid(d)
    ensures DaysBefore(first) <= Ordinal(d)
  {
    if first != Month(d.year, d.month) {
      DaysBeforeGrows(first, Month(d.year, d.month));
    }
  }

  lemma OrdinalOfDate(d: Date)
    requires Valid(d)
    ensures FIRST_DAY <= Ordinal(d) && DateOf(Ordinal(d)) == d
  {
    FirstDayIsYearOne();
    OrdinalFrom(Month(1, 1), d);
    DateOfOrdinal(Ordinal(d));
    OrdinalOrders(d, DateOf(Ordinal(d)));
  }

  // --- cycles ---------------------------------------------------------------------------

  function Clamp(m: Month, billingDay: int): Date {
    ClampBillingDay(m.year, m.month, billingDay)
  }

  /** A cycle starts on the billing day, or on the last day of a month that has no such day. */
  lemma StartsOnBillingDay(m: Month, billingDay: int)
    requires ValidMonth(m) && 1 <= billingDay <= 31
    ensures var start := Clamp(m, billingDay);
      && start.year == m.year && start.month == m.month && 1 <= start.day <= billingDay
      && (start.day == billingDay
          || (m.month in {4, 6, 9, 11} && start.day == 30)
          || (m.month == 2 && start.day == if DaysBefore(Month(m.year + 1, 1)) - DaysBefore(Month(m.year, 1)) == 366
                                           then 29 else 28))
      && StartDay(m, billingDay) == DaysBefore(m) + start.day - 1
  {
    YearLength(m.year);
  }

  /** The day on which the cycle of a month starts. */
  function StartDay(m: Month, billingDay: int): int {
    Ordinal(Clamp(m, billingDay))
  }

  function CycleKey(day: nat, billingDay: int): Month {
    CycleBounds(DateOf(day), billingDay).0
  }

  lemma StartsGrow(a: Month, b: Month, billingDay: int)
    requires ValidMonth(a) && ValidMonth(b) && Index(a) < Index(b) && 1 <= billingDay
    ensures StartDay(a, billingDay) < StartDay(b, billingDay)
  {
    DaysBeforeGrows(a, b);
  }

  function KeyOf(date: Date, billingDay: int): Month {
    var m := Month(date.year, date.month);
    if Before(date, Clamp(m, billingDay)) then Previous(m) else m
  }

  /** What the source computes, without its month arithmetic. */
  lemma BoundsAre(date: Date, billingDay: int)
    requires Valid(date)
    ensures var key := KeyOf(date, billingDay);
      CycleBounds(date, billingDay) == (key, Clamp(key, billingDay), DayBefore(Clamp(Next(key), billingDay)))
  {
    ShiftIsNeighbour(date.year, date.month);
    var key := KeyOf(date, billingDay);
    ShiftIsNeighbour(key.year, key.month);
  }

  lemma DayBeforeIsPrevious(m: Month, billingDay: int)
    requires ValidMonth(m) && Index(Month(0, 1)) < Index(m) && 1 <= billingDay
    ensures Ordinal(DayBefore(Clamp(m, billingDay))) == StartDay(m, billingDay) - 1
    ensures 12 < Index(m) ==> Valid(DayBefore(Clamp(m, billingDay)))
  {
    ShiftIsNeighbour(m.year, m.month);
  }

  lemma KeyHoldsDay(date: Date, billingDay: int)
    requires Valid(date) && 1 <= billingDay <= 31
    ensures var key := KeyOf(date, billingDay);
      && ValidMonth(key) && ValidMonth(Next(key))
      && StartDay(key, billingDay) <= Ordinal(date) < StartDay(Next(key), billingDay)
  {
    var m := Month(date.year, date.month);
    if Before(date, Clamp(m, billingDay)) {
      NextDays(Previous(m));
    } else {
      NextDays(m);
    }
  }

  /** A day lies in the window of its own key. */
  lemma OwnWindow(day: nat, billingDay: int)
    requires FIRST_DAY <= day && 1 <= billingDay <= 31
    ensures var key := CycleKey(day, billingDay);
      ValidMonth(key) && StartDay(key, billingDay) <= day < StartDay(Next(key), billingDay)
  {
    DateOfOrdinal(day);
    BoundsAre(DateOf(day), billingDay);
    KeyHoldsDay(DateOf(day), billingDay);
  }

  /** Windows do not overlap. */
  lemma WindowsApart(a: Month, b: Month, day: int, billingDay: int)
    requires ValidMonth(a) && ValidMonth(b) && 1 <= billingDay && Index(a) < Index(b)
    ensures !(StartDay(a, billingDay) <= day < StartDay(Next(a), billingDay) && StartDay(b, billingDay) <= day)
  {
    if Next(a) != b {
      StartsGrow(Next(a), b, billingDay);
    }
  }

  lemma OnlyWindow(mine: Month, key: Month, day: int, billingDay: int)
    requires ValidMonth(mine) && ValidMonth(key) && 1 <= billingDay
    requires StartDay(mine, billingDay) <= day < StartDay(Next(mine), billingDay)
    ensures mine == key <==> StartDay(key, billingDay) <= day < StartDay(Next(key), billingDay)
  {
    if Index(mine) < Index(key) {
      WindowsApart(mine, key, day, billingDay);
    } else if Index(key) < Index(mine) {
      WindowsApart(key, mine, day, billingDay);
    }
  }

  /** Cycles tile the calendar: a day has a key exactly when it lies between that key's start and the next one,
      for every billing day and every month, short or leap. */
  lemma CyclesTile(day: nat, billingDay: int, key: Month)
    requires FIRST_DAY <= day && 1 <= billingDay <= 31 && ValidMonth(key)
    ensures CycleKey(day, billingDay) == key <==> StartDay(key, billingDay) <= day < StartDay(Next(key), billingDay)
  {
    OwnWindow(day, billingDay);
    OnlyWindow(CycleKey(day, billingDay), key, day, billingDay);
  }

  /** The same in the source's own terms: the window of a date holds it, another date lies in it exactly when it
      has the same key, and the day after it starts the cycle whose key is the next month. */
  lemma WindowsTile(date: Date, other: Date, billingDay: int)
    requires Valid(date) && Valid(other) && 1 <= billingDay <= 31
    requires 1 <= CycleBounds(date, billingDay).0.year
    ensures var (key, start, end) := CycleBounds(date, billingDay);
      && Valid(start) && Valid(end) && !Before(date, start) && !Before(end, date)
      && (!Before(other, start) && !Before(end, other) <==> CycleBounds(other, billingDay).0 == key)
      && var next := DateOf(Ordinal(end) + 1);
         CycleBounds(next, billingDay).0 == Next(key) && CycleBounds(next, billingDay).1 == next
  {
    BoundsAre(date, billingDay);
    KeyHoldsDay(date, billingDay);
    var key := KeyOf(date, billingDay);
    InWindow(key, date, billingDay);
    SameWindow(key, other, billingDay);
    StartOfCycle(Next(key), billingDay);
  }

  lemma SameWindow(key: Month, other: Date, billingDay: int)
    requires ValidMonth(key) && 1 <= key.year && Valid(other) && 1 <= billingDay <= 31
    ensures var start, end := Clamp(key, billingDay), DayBefore(Clamp(Next(key), billingDay));
      !Before(other, start) && !Before(end, other) <==> CycleBounds(other, billingDay).0 == key
  {
    InWindow(key, other, billingDay);
    OrdinalOfDate(other);
    CyclesTile(Ordinal(other), billingDay, key);
  }

  /** Lying between a window's first and last day is lying between its start and the next one. */
  lemma InWindow(key: Month, date: Date, billingDay: int)
    requires ValidMonth(key) && 1 <= key.year && Valid(date) && 1 <= billingDay
    ensures var start, end := Clamp(key, billingDay), DayBefore(Clamp(Next(key), billingDay));
      && Valid(start) && Valid(end) && Ordinal(end) + 1 == StartDay(Next(key), billingDay)
      && (!Before(date, start) && !Before(end, date)
          <==> StartDay(key, billingDay) <= Ordinal(date) < StartDay(Next(key), billingDay))
  {
    DayBeforeIsPrevious(Next(key), billingDay);
    OrdinalOrders(date, Clamp(key, billingDay));
    OrdinalOrders(DayBefore(Clamp(Next(key), billingDay)), date);
  }

  lemma StartOfCycle(key: Month, billingDay: int)
    requires ValidMonth(key) && 1 <= key.year && 1 <= billingDay <= 31
    ensures 0 <= StartDay(key, billingDay)
    ensures DateOf(StartDay(key, billingDay)) == Clamp(key, billingDay)
    ensures CycleBounds(Clamp(key, billingDay), billingDay).0 == key
    ensures CycleBounds(Clamp(key, billingDay), billingDay).1 == Clamp(key, billingDay)
  {
    OrdinalOfDate(Clamp(key, billingDay));
    BoundsAre(Clamp(key, billingDay), billingDay);
  }
}
