/** Matching a day's excess of attributed bytes against the shortfall of a poll that crossed midnight. */
module Reconciliation {
  import opened Accounting

  datatype UsageKey = UsageKey(day: int, user: Name, protocol: Name)

  datatype PollBoundary = PollBoundary(start: int, end: int, user: Name, protocol: Name, counters: Counters)

  datatype BoundaryOffset = BoundaryOffset(source: int, target: int, user: Name, protocol: Name, counters: Counters)

  /** The two counters are reconciled independently. */
  datatype Direction = Up | Down

  type Residuals = map<UsageKey, Counters>

  function Get(c: Counters, dir: Direction): int {
    if dir.Up? then c.up else c.down
  }

  /** A day without usage is a day without residual. */
  predicate AtLeastZero(c: Counters) {
    0 <= c.up && 0 <= c.down
  }

  function At(m: Residuals, key: UsageKey, dir: Direction): int {
    if key in m then Get(m[key], dir) else 0
  }

  function Positive(x: int): int {
    if x > 0 then x else 0
  }

  function Min(a: int, b: int): int {
    if a < b then a else b
  }

  function Target(b: PollBoundary): UsageKey {
    UsageKey(b.end, b.user, b.protocol)
  }

  function Source(b: PollBoundary, day: int): UsageKey {
    UsageKey(day, b.user, b.protocol)
  }

  /** The excess of one owner from one day to another, the last excluded. */
  function Excess(m: Residuals, b: PollBoundary, until: int, dir: Direction): int
    decreases until - b.start
  {
    if until <= b.start then 0
    else Excess(m, b, until - 1, dir) + Positive(-At(m, Source(b, until - 1), dir))
  }

  /** How much of a boundary the excess before a day can fill. */
  function Fill(m: Residuals, b: PollBoundary, until: int, dir: Direction): int {
    Min(Min(Get(b.counters, dir), Positive(At(m, Target(b), dir))), Excess(m, b, until, dir))
  }

  /** What a boundary takes from one of its days. */
  function Share(m: Residuals, b: PollBoundary, day: int, dir: Direction): int {
    if b.start <= day < b.end then Fill(m, b, day + 1, dir) - Fill(m, b, day, dir) else 0
  }

  lemma {:induction false} ExcessGrows(m: Residuals, b: PollBoundary, until: int, later: int, dir: Direction)
    requires until <= later
    ensures 0 <= Excess(m, b, until, dir) <= Excess(m, b, later, dir)
    decreases later - until, later - b.start
  {
    if until < later {
      ExcessGrows(m, b, until, later - 1, dir);
    } else if until > b.start {
      ExcessGrows(m, b, until - 1, until - 1, dir);
    }
  }

  /** Days without a residual row add nothing. */
  lemma {:induction false} ExcessSkips(m: Residuals, b: PollBoundary, until: int, later: int, dir: Direction)
    requires until <= later
    requires forall day :: until <= day < later ==> Source(b, day) !in m
    ensures Excess(m, b, later, dir) == Excess(m, b, until, dir)
    decreases later - until
  {
    if until < later {
      ExcessSkips(m, b, until, later - 1, dir);
      assert Source(b, later - 1) !in m;
    }
  }

  predicate Ascending(days: seq<int>) {
    forall i, j :: 0 <= i < j < |days| ==> days[i] < days[j]
  }

  ghost predicate DaysOf(days: seq<int>, m: Residuals, b: PollBoundary) {
    Ascending(days) && forall day {:trigger day in days} :: day in days <==> Source(b, day) in m
  }

  method OwnerDays(m: Residuals, b: PollBoundary) returns (days: seq<int>)
    ensures DaysOf(days, m, b)
  {
    var left := set key <- m.Keys | key.user == b.user && key.protocol == b.protocol :: key.day;
    ghost var all := left;
    days := [];
    while left != {}
      invariant left <= all
      invariant Ascending(days)
      invariant forall day :: day in days <==> day in all - left
      invariant forall day <- days, rest <- left :: day < rest
      decreases left
    {
      var day := Earliest(left);
      assert forall i :: 0 <= i < |days| ==> days[i] in days;
      days := days + [day];
      left := left - {day};
    }
    forall day ensures day in days <==> Source(b, day) in m {
      assert Source(b, day) in m <==> day in all;
    }
  }

  method Earliest(days: set<int>) returns (day: int)
    requires days != {}
    ensures day in days && forall d <- days :: day <= d
  {
    assert (forall d :: d !in days) ==> days == {};
    day :| day in days;
    var left := days - {day};
    while left != {}
      invariant left <= days && day in days
      invariant forall d <- days :: d in left || day <= d
      decreases left
    {
      assert (forall d :: d !in left) ==> left == {};
      var d :| d in left;
      if d < day {
        day := d;
      }
      left := left - {d};
    }
  }

  /** The first position whose day is not before the given one. */
  method BisectLeft(days: seq<int>, day: int) returns (at: nat)
    requires Ascending(days)
    ensures at <= |days|
    ensures forall i :: 0 <= i < |days| ==> (i < at <==> days[i] < day)
  {
    var lo, hi := 0, |days|;
    while lo < hi
      invariant 0 <= lo <= hi <= |days|
      invariant forall i :: 0 <= i < lo ==> days[i] < day
      invariant forall i :: hi <= i < |days| ==> day <= days[i]
    {
      var mid := (lo + hi) / 2;
      if days[mid] < day {
        lo := mid + 1;
      } else {
        hi := mid;
      }
    }
    return lo;
  }

  // --- one boundary ----------------------------------------------------------------

  /** The residuals after a boundary took its share of every day before one. */
  ghost predicate Took(m: Residuals, m': Residuals, b: PollBoundary, until: int) {
    && m'.Keys == m.Keys
    && forall key, dir :: At(m', key, dir) == Taken(m, b, until, key, dir)
  }

  function Taken(m: Residuals, b: PollBoundary, until: int, key: UsageKey, dir: Direction): int {
    if key == Target(b) then At(m, key, dir) - Fill(m, b, until, dir)
    else if key == Source(b, key.day) && key.day < until then At(m, key, dir) + Share(m, b, key.day, dir)
    else At(m, key, dir)
  }

  /** The offsets list, in day order, exactly the days that gave a share, with that share. */
  ghost predicate Lists(offsets: seq<BoundaryOffset>, m: Residuals, b: PollBoundary, until: int) {
    && (forall o <- offsets ::
          && o == BoundaryOffset(o.source, b.end, b.user, b.protocol, o.counters)
          && b.start <= o.source < until && Source(b, o.source) in m
          && o.counters == Shares(m, b, o.source) && o.counters != ZERO)
    && (forall i, j :: 0 <= i < j < |offsets| ==> offsets[i].source < offsets[j].source)
    && (forall day {:trigger Covers(offsets, day)} :: b.start <= day < until && Shares(m, b, day) != ZERO ==>
        Covers(offsets, day))
  }

  function Shares(m: Residuals, b: PollBoundary, day: int): Counters {
    Counters(Share(m, b, day, Up), Share(m, b, day, Down))
  }

  ghost predicate Covers(offsets: seq<BoundaryOffset>, day: int) {
    exists i :: 0 <= i < |offsets| && offsets[i].source == day
  }

  /** Filling from one more day takes what is excess there, still short at the target, and still left of the poll. */
  lemma FillStep(m: Residuals, b: PollBoundary, day: int, dir: Direction)
    requires b.start <= day < b.end && 0 <= Get(b.counters, dir)
    ensures var filled := Fill(m, b, day, dir);
      && Share(m, b, day, dir) == Min(Min(Positive(-At(m, Source(b, day), dir)),
                                          Positive(At(m, Target(b), dir) - filled)),
                                      Get(b.counters, dir) - filled)
      && 0 <= Share(m, b, day, dir) <= Positive(-At(m, Source(b, day), dir))
      && 0 <= filled <= Get(b.counters, dir)
      && (At(m, Target(b), dir) > 0 ==> filled <= At(m, Target(b), dir))
      && (At(m, Target(b), dir) <= 0 ==> filled == 0)
  {
    ExcessGrows(m, b, day, day, dir);
  }

  /** Skipping days without residual rows changes nothing. */
  lemma TookSkips(m: Residuals, m': Residuals, b: PollBoundary, until: int, later: int)
    requires Took(m, m', b, until) && until <= later
    requires forall day :: until <= day < later ==> Source(b, day) !in m
    ensures Took(m, m', b, later)
  {
    forall key, dir ensures At(m', key, dir) == Taken(m, b, later, key, dir) {
      assert At(m', key, dir) == Taken(m, b, until, key, dir);
      ExcessSkips(m, b, until, later, dir);
      if key == Source(b, key.day) && until <= key.day < later {
        ShareOfAbsent(m, b, key.day, dir);
      }
    }
  }

  lemma ShareOfAbsent(m: Residuals, b: PollBoundary, day: int, dir: Direction)
    requires Source(b, day) !in m
    ensures Share(m, b, day, dir) == 0
  {
  }

  lemma ListsSkips(offsets: seq<BoundaryOffset>, m: Residuals, b: PollBoundary, until: int, later: int)
    requires Lists(offsets, m, b, until) && until <= later
    requires forall day :: until <= day < later ==> Source(b, day) !in m
    ensures Lists(offsets, m, b, later)
  {
    forall day | b.start <= day < later && Shares(m, b, day) != ZERO ensures Covers(offsets, day) {
      if until <= day {
        ShareOfAbsent(m, b, day, Up);
        ShareOfAbsent(m, b, day, Down);
      }
    }
  }

  function Matched(source: int, target: int, capacity: int): int {
    Min(Min(Positive(-source), Positive(target)), capacity)
  }

  function Moved(m: Residuals, from: UsageKey, to: UsageKey, amount: Counters): Residuals
    requires from in m && to in m
  {
    m[from := Counters(m[from].up + amount.up, m[from].down + amount.down)]
     [to := Counters(m[to].up - amount.up, m[to].down - amount.down)]
  }

  lemma TookStep(m: Residuals, m': Residuals, b: PollBoundary, day: int, amount: Counters)
    requires Took(m, m', b, day) && b.start <= day < b.end && AtLeastZero(b.counters)
    requires Target(b) in m && Source(b, day) in m
    requires amount == Shares(m, b, day)
    ensures Took(m, Moved(m', Source(b, day), Target(b), amount), b, day + 1)
  {
    var m2 := Moved(m', Source(b, day), Target(b), amount);
    forall key, dir ensures At(m2, key, dir) == Taken(m, b, day + 1, key, dir) {
      assert At(m', key, dir) == Taken(m, b, day, key, dir);
      assert Get(amount, dir) == Share(m, b, day, dir);
    }
  }

  lemma ListsStep(offsets: seq<BoundaryOffset>, m: Residuals, b: PollBoundary, day: int)
    requires Lists(offsets, m, b, day) && b.start <= day && Source(b, day) in m
    ensures var amount := Shares(m, b, day);
      var next := if amount == ZERO then offsets
                  else offsets + [BoundaryOffset(day, b.end, b.user, b.protocol, amount)];
      Lists(next, m, b, day + 1)
  {
    var amount := Shares(m, b, day);
    var offset := BoundaryOffset(day, b.end, b.user, b.protocol, amount);
    var next := if amount == ZERO then offsets else offsets + [offset];
    assert forall i :: 0 <= i < |offsets| ==> offsets[i] in offsets;
    forall d | b.start <= d < day + 1 && Shares(m, b, d) != ZERO ensures Covers(next, d) {
      if d == day {
        assert next[|offsets|].source == day;
      } else {
        assert Covers(offsets, d);
        var i :| 0 <= i < |offsets| && offsets[i].source == d;
        assert next[i].source == d;
      }
    }
  }

  lemma MovedNothing(m: Residuals, from: UsageKey, to: UsageKey)
    requires from in m && to in m
    ensures Moved(m, from, to, ZERO) == m
  {
    assert Counters(m[from].up, m[from].down) == m[from];
    assert Counters(m[to].up, m[to].down) == m[to];
  }

  lemma NoDaysBetween(days: seq<int>, m: Residuals, b: PollBoundary, i: nat, until: int, day: int)
    requires DaysOf(days, m, b) && i <= |days|
    requires forall j :: 0 <= j < i ==> days[j] < until
    requires forall j :: i <= j < |days| ==> day <= days[j]
    ensures forall d :: until <= d < day ==> Source(b, d) !in m
  {
    forall d | until <= d < day ensures Source(b, d) !in m {
      assert d !in days;
    }
  }

  lemma FillSkips(m: Residuals, b: PollBoundary, until: int, later: int)
    requires until <= later
    requires forall day :: until <= day < later ==> Source(b, day) !in m
    ensures forall dir :: Fill(m, b, later, dir) == Fill(m, b, until, dir)
  {
    ExcessSkips(m, b, until, later, Up);
    ExcessSkips(m, b, until, later, Down);
  }

  /** When the loop reaches a day, its residual is still the original one, and the target lacks what was filled. */
  lemma SourceUntouched(m: Residuals, m': Residuals, b: PollBoundary, day: int, dir: Direction)
    requires Took(m, m', b, day) && day < b.end && Source(b, day) in m && Target(b) in m
    ensures Source(b, day) in m' && Target(b) in m'
    ensures Get(m'[Source(b, day)], dir) == At(m, Source(b, day), dir)
    ensures Get(m'[Target(b)], dir) == At(m, Target(b), dir) - Fill(m, b, day, dir)
  {
    assert At(m', Source(b, day), dir) == Taken(m, b, day, Source(b, day), dir);
    assert At(m', Target(b), dir) == Taken(m, b, day, Target(b), dir);
  }

  lemma TookNothing(m: Residuals, b: PollBoundary)
    requires AtLeastZero(b.counters)
    ensures Took(m, m, b, b.start) && Lists([], m, b, b.start)
    ensures b.end <= b.start ==> Took(m, m, b, b.end) && Lists([], m, b, b.end)
  {
  }

  function From(o: BoundaryOffset): UsageKey {
    UsageKey(o.source, o.user, o.protocol)
  }

  function To(o: BoundaryOffset): UsageKey {
    UsageKey(o.target, o.user, o.protocol)
  }

  /** What the offsets bring to a residual, less what they take from it. */
  function Flow(offsets: seq<BoundaryOffset>, key: UsageKey, dir: Direction): int {
    if offsets == [] then 0
    else
      var o := offsets[|offsets| - 1];
      Flow(offsets[..|offsets| - 1], key, dir)
      + (if From(o) == key then Get(o.counters, dir) else 0) - (if To(o) == key then Get(o.counters, dir) else 0)
  }

  /** The offsets explain every change. */
  ghost predicate Balanced(m: Residuals, m': Residuals, offsets: seq<BoundaryOffset>) {
    && m'.Keys == m.Keys
    && forall key, dir {:trigger Flow(offsets, key, dir)} :: At(m', key, dir)
        == At(m, key, dir) + Flow(offsets, key, dir)
  }

  lemma MoveBalances(m: Residuals, m': Residuals, offsets: seq<BoundaryOffset>, o: BoundaryOffset)
    requires Balanced(m, m', offsets) && From(o) in m' && To(o) in m' && From(o) != To(o)
    ensures Balanced(m, Moved(m', From(o), To(o), o.counters), offsets + [o])
  {
    assert (offsets + [o])[..|offsets|] == offsets;
    var m2 := Moved(m', From(o), To(o), o.counters);
    forall key, dir ensures At(m2, key, dir) == At(m, key, dir) + Flow(offsets + [o], key, dir) {
      assert At(m', key, dir) == At(m, key, dir) + Flow(offsets, key, dir);
    }
  }

  lemma {:induction false} FlowConcat(a: seq<BoundaryOffset>, b: seq<BoundaryOffset>, key: UsageKey, dir: Direction)
    ensures Flow(a + b, key, dir) == Flow(a, key, dir) + Flow(b, key, dir)
  {
    if b == [] {
      assert a + b == a;
    } else {
      assert (a + b)[..|a + b| - 1] == a + b[..|b| - 1];
      FlowConcat(a, b[..|b| - 1], key, dir);
    }
  }

  /** The state of the greedy pass before a day. */
  ghost predicate Progress(m: Residuals, m': Residuals, offsets: seq<BoundaryOffset>, capacity: Counters,
                           b: PollBoundary, until: int) {
    && Took(m, m', b, until) && Lists(offsets, m, b, until)
    && capacity == Counters(b.counters.up - Fill(m, b, until, Up), b.counters.down - Fill(m, b, until, Down))
  }

  lemma ProgressSkips(m: Residuals, m': Residuals, offsets: seq<BoundaryOffset>, capacity: Counters,
                      b: PollBoundary, until: int, later: int)
    requires Progress(m, m', offsets, capacity, b, until) && until <= later
    requires forall day :: until <= day < later ==> Source(b, day) !in m
    ensures Progress(m, m', offsets, capacity, b, later)
  {
    TookSkips(m, m', b, until, later);
    ListsSkips(offsets, m, b, until, later);
    FillSkips(m, b, until, later);
  }

  lemma MatchedIsShare(m: Residuals, m': Residuals, offsets: seq<BoundaryOffset>, capacity: Counters,
                       b: PollBoundary, day: int, dir: Direction)
    requires Progress(m, m', offsets, capacity, b, day) && b.start <= day < b.end && AtLeastZero(b.counters)
    requires Source(b, day) in m && Target(b) in m
    ensures Source(b, day) in m' && Target(b) in m'
    ensures Matched(Get(m'[Source(b, day)], dir), Get(m'[Target(b)], dir), Get(capacity, dir)) == Share(m, b, day, dir)
  {
    FillStep(m, b, day, dir);
    SourceUntouched(m, m', b, day, dir);
  }

  lemma ProgressStep(m: Residuals, m': Residuals, offsets: seq<BoundaryOffset>, capacity: Counters,
                     b: PollBoundary, day: int)
    requires Progress(m, m', offsets, capacity, b, day) && b.start <= day < b.end && AtLeastZero(b.counters)
    requires Source(b, day) in m && Target(b) in m
    ensures Source(b, day) in m' && Target(b) in m'
    ensures var amount := Shares(m, b, day);
      if amount == ZERO then Progress(m, m', offsets, capacity, b, day + 1)
      else Progress(m, Moved(m', Source(b, day), Target(b), amount),
                    offsets + [BoundaryOffset(day, b.end, b.user, b.protocol, amount)],
                    Counters(capacity.up - amount.up, capacity.down - amount.down), b, day + 1)
  {
    SourceUntouched(m, m', b, day, Up);
    TookStep(m, m', b, day, Shares(m, b, day));
    ListsStep(offsets, m, b, day);
    if Shares(m, b, day) == ZERO {
      MovedNothing(m', Source(b, day), Target(b));
    }
  }

  /** Takes what one day can give. */
  method MatchDay(ghost residuals: Residuals, given: Residuals, listed: seq<BoundaryOffset>, left: Counters,
                  b: PollBoundary, day: int)
      returns (remaining: Residuals, offsets: seq<BoundaryOffset>, capacity: Counters)
    requires Progress(residuals, given, listed, left, b, day) && Balanced(residuals, given, listed)
    requires b.start <= day < b.end && AtLeastZero(b.counters)
    requires Source(b, day) in residuals && Target(b) in residuals
    ensures Progress(residuals, remaining, offsets, capacity, b, day + 1) && Balanced(residuals, remaining, offsets)
  {
    remaining, offsets, capacity := given, listed, left;
    ProgressStep(residuals, remaining, offsets, capacity, b, day);
    MatchedIsShare(residuals, remaining, offsets, capacity, b, day, Up);
    MatchedIsShare(residuals, remaining, offsets, capacity, b, day, Down);
    var from, to := Source(b, day), Target(b);
    var amount := Counters(Matched(remaining[from].up, remaining[to].up, capacity.up),
                           Matched(remaining[from].down, remaining[to].down, capacity.down));
    if amount != ZERO {
      MoveBalances(residuals, remaining, offsets, BoundaryOffset(day, b.end, b.user, b.protocol, amount));
      remaining := Moved(remaining, from, to, amount);
      capacity := Counters(capacity.up - amount.up, capacity.down - amount.down);
      offsets := offsets + [BoundaryOffset(day, b.end, b.user, b.protocol, amount)];
    }
  }

  /** The days before position i are done, and nothing from until on is. */
  predicate Cursor(days: seq<int>, i: nat, until: int) {
    && i <= |days|
    && (forall j :: 0 <= j < i ==> days[j] < until)
    && (forall j :: i <= j < |days| ==> until <= days[j])
  }

  lemma CursorMoves(days: seq<int>, i: nat, until: int)
    requires Ascending(days) && Cursor(days, i, until) && i < |days|
    ensures Cursor(days, i + 1, days[i] + 1)
  {
  }

  /** No residual lies between the cursor and the next day. */
  lemma SkipsTo(days: seq<int>, i: nat, until: int, later: int, m: Residuals, m': Residuals,
                offsets: seq<BoundaryOffset>, capacity: Counters, b: PollBoundary)
    requires DaysOf(days, m, b) && Cursor(days, i, until) && until <= later && (i < |days| ==> later <= days[i])
    requires Progress(m, m', offsets, capacity, b, until)
    ensures Progress(m, m', offsets, capacity, b, later)
  {
    NoDaysBetween(days, m, b, i, until, later);
    ProgressSkips(m, m', offsets, capacity, b, until, later);
  }

  lemma DayIsListed(days: seq<int>, m: Residuals, b: PollBoundary, i: nat)
    requires DaysOf(days, m, b) && i < |days|
    ensures Source(b, days[i]) in m
  {
    assert days[i] in days;
  }

  /** Greedy over the boundary's days that have a residual, oldest first. */
  method MatchBoundary(residuals: Residuals, b: PollBoundary)
      returns (remaining: Residuals, offsets: seq<BoundaryOffset>)
    requires Target(b) in residuals && AtLeastZero(b.counters)
    ensures Took(residuals, remaining, b, b.end)
    ensures Lists(offsets, residuals, b, b.end)
    ensures Balanced(residuals, remaining, offsets)
  {
    var days := OwnerDays(residuals, b);
    var first := BisectLeft(days, b.start);
    var last := BisectLeft(days, b.end);
    TookNothing(residuals, b);
    if b.end <= b.start {
      return residuals, [];
    }
    assert first > 0 ==> days[first - 1] < b.end;
    ghost var capacity, until;
    remaining, offsets, capacity, until := MatchDays(residuals, b, days, first, last);
    WalkEnds(residuals, remaining, offsets, capacity, b, days, last, until);
  }

  /** The pass over one boundary's days, before position i. */
  ghost predicate Walk(m: Residuals, m': Residuals, offsets: seq<BoundaryOffset>, capacity: Counters, b: PollBoundary,
                       days: seq<int>, i: nat, until: int) {
    && b.start <= until <= b.end && Cursor(days, i, until)
    && Progress(m, m', offsets, capacity, b, until) && Balanced(m, m', offsets)
  }

  method WalkDay(ghost residuals: Residuals, given: Residuals, listed: seq<BoundaryOffset>, left: Counters,
                 b: PollBoundary, days: seq<int>, i: nat, ghost until: int)
      returns (remaining: Residuals, offsets: seq<BoundaryOffset>, capacity: Counters)
    requires Walk(residuals, given, listed, left, b, days, i, until) && DaysOf(days, residuals, b)
    requires i < |days| && days[i] < b.end && AtLeastZero(b.counters) && Target(b) in residuals
    ensures Walk(residuals, remaining, offsets, capacity, b, days, i + 1, days[i] + 1)
  {
    SkipsTo(days, i, until, days[i], residuals, given, listed, left, b);
    DayIsListed(days, residuals, b, i);
    CursorMoves(days, i, until);
    remaining, offsets, capacity := MatchDay(residuals, given, listed, left, b, days[i]);
  }

  lemma WalkEnds(m: Residuals, m': Residuals, offsets: seq<BoundaryOffset>, capacity: Counters, b: PollBoundary,
                 days: seq<int>, i: nat, until: int)
    requires Walk(m, m', offsets, capacity, b, days, i, until) && DaysOf(days, m, b)
    requires i < |days| ==> b.end <= days[i]
    ensures Took(m, m', b, b.end) && Lists(offsets, m, b, b.end) && Balanced(m, m', offsets)
  {
    SkipsTo(days, i, until, b.end, m, m', offsets, capacity, b);
  }

  method MatchDays(residuals: Residuals, b: PollBoundary, days: seq<int>, first: nat, last: nat)
      returns (remaining: Residuals, offsets: seq<BoundaryOffset>, ghost capacity: Counters, ghost until: int)
    requires Target(b) in residuals && AtLeastZero(b.counters) && DaysOf(days, residuals, b)
    requires first <= last <= |days| && forall i :: 0 <= i < |days| ==> (i < last <==> days[i] < b.end)
    requires Walk(residuals, residuals, [], b.counters, b, days, first, b.start)
    ensures Walk(residuals, remaining, offsets, capacity, b, days, last, until)
  {
    remaining, offsets := residuals, [];
    var left := b.counters;
    until := b.start;
    for i := first to last
      invariant Walk(residuals, remaining, offsets, left, b, days, i, until)
    {
      remaining, offsets, left := WalkDay(residuals, remaining, offsets, left, b, days, i, until);
      until := days[i] + 1;
    }
    capacity := left;
  }

  predicate SameOwner(a: PollBoundary, b: PollBoundary) {
    a.user == b.user && a.protocol == b.protocol
  }

  /** One owner's polls follow one another: no two intervals overlap. */
  ghost predicate Apart(a: PollBoundary, b: PollBoundary) {
    SameOwner(a, b) ==> a.end <= b.start || b.end <= a.start
  }

  /** No boundary is listed twice, and different ones lie apart. */
  ghost predicate Disjoint(boundaries: multiset<PollBoundary>) {
    && (forall b <- boundaries :: b.start < b.end && boundaries[b] == 1)
    && (forall a <- boundaries, b <- boundaries :: a != b ==> Apart(a, b))
  }

  /** The order of the poll pass: by end, then protocol, then user. */
  predicate NotAfter(a: PollBoundary, b: PollBoundary) {
    a.end < b.end || (a.end == b.end && (a.protocol < b.protocol || (a.protocol == b.protocol && a.user <= b.user)))
  }

  predicate Sorted(boundaries: seq<PollBoundary>) {
    forall i, j :: 0 <= i < j < |boundaries| ==> NotAfter(boundaries[i], boundaries[j])
  }

  function Inserted(sorted: seq<PollBoundary>, b: PollBoundary): (r: seq<PollBoundary>)
    ensures multiset(r) == multiset(sorted) + multiset{b}
  {
    if sorted == [] then [b]
    else
      assert sorted == sorted[..|sorted| - 1] + [sorted[|sorted| - 1]];
      if NotAfter(sorted[|sorted| - 1], b) then sorted + [b]
      else Inserted(sorted[..|sorted| - 1], b) + [sorted[|sorted| - 1]]
  }

  lemma {:induction false} InsertedSorted(sorted: seq<PollBoundary>, b: PollBoundary)
    requires Sorted(sorted)
    ensures Sorted(Inserted(sorted, b))
  {
    if sorted != [] && !NotAfter(sorted[|sorted| - 1], b) {
      var init, last := sorted[..|sorted| - 1], sorted[|sorted| - 1];
      InsertedSorted(init, b);
      var r := Inserted(init, b);
      forall i | 0 <= i < |r| ensures NotAfter(r[i], last) {
        assert r[i] in multiset(r);
        assert r[i] in multiset(init) || r[i] == b;
        if r[i] in init {
          var j :| 0 <= j < |init| && init[j] == r[i];
          assert sorted[j] == r[i];
        }
      }
    }
  }

  method SortBoundaries(boundaries: seq<PollBoundary>) returns (sorted: seq<PollBoundary>)
    ensures multiset(sorted) == multiset(boundaries) && Sorted(sorted)
    ensures forall i, j :: 0 <= i < j < |sorted| ==>
      && sorted[i].end <= sorted[j].end
      && (sorted[i].end == sorted[j].end ==> sorted[i].protocol <= sorted[j].protocol)
      && (sorted[i].end == sorted[j].end && sorted[i].protocol == sorted[j].protocol ==>
            sorted[i].user <= sorted[j].user)
  {
    sorted := [];
    for i := 0 to |boundaries|
      invariant multiset(sorted) == multiset(boundaries[..i]) && Sorted(sorted)
    {
      InsertedSorted(sorted, boundaries[i]);
      sorted := Inserted(sorted, boundaries[i]);
      assert boundaries[..i + 1] == boundaries[..i] + [boundaries[i]];
    }
    assert boundaries[..|boundaries|] == boundaries;
  }

  lemma NoRepeats(boundaries: seq<PollBoundary>, i: nat, j: nat)
    requires Disjoint(multiset(boundaries)) && i < j < |boundaries|
    ensures boundaries[i] != boundaries[j] && Apart(boundaries[i], boundaries[j])
    ensures boundaries[i].start < boundaries[i].end
  {
    var before, after := boundaries[..j], boundaries[j..];
    assert boundaries == before + after;
    assert boundaries[i] == before[i] && boundaries[j] == after[0];
    assert boundaries[i] in multiset(before) && boundaries[j] in multiset(after);
    assert multiset(boundaries) == multiset(before) + multiset(after);
  }

  /** What some boundaries took from one residual in all, and what they brought to it as their target. */
  function Given(m: Residuals, done: seq<PollBoundary>, key: UsageKey, dir: Direction): int {
    if done == [] then 0
    else
      var b := done[|done| - 1];
      Given(m, done[..|done| - 1], key, dir) + if Source(b, key.day) == key then Share(m, b, key.day, dir) else 0
  }

  function Received(m: Residuals, done: seq<PollBoundary>, key: UsageKey, dir: Direction): int {
    if done == [] then 0
    else
      var b := done[|done| - 1];
      Received(m, done[..|done| - 1], key, dir) + if Target(b) == key then Fill(m, b, b.end, dir) else 0
  }

  /** Every boundary so far took its share of the ORIGINAL residuals. */
  ghost predicate Settled(m: Residuals, m': Residuals, done: seq<PollBoundary>) {
    && m'.Keys == m.Keys
    && forall key, dir :: At(m', key, dir) == At(m, key, dir) + Given(m, done, key, dir) - Received(m, done, key, dir)
  }

  ghost predicate Usable(done: seq<PollBoundary>) {
    && Disjoint(multiset(done)) && Sorted(done)
    && forall i :: 0 <= i < |done| ==> AtLeastZero(done[i].counters)
  }

  lemma UsablePrefix(done: seq<PollBoundary>)
    requires Usable(done) && done != []
    ensures Usable(done[..|done| - 1])
  {
    var init := done[..|done| - 1];
    assert done == init + [done[|done| - 1]];
    assert multiset(done) == multiset(init) + multiset{done[|done| - 1]};
  }

  lemma ShareBounds(m: Residuals, b: PollBoundary, day: int, dir: Direction)
    requires AtLeastZero(b.counters)
    ensures 0 <= Share(m, b, day, dir) <= Positive(-At(m, Source(b, day), dir))
    ensures 0 <= Fill(m, b, day, dir) <= Positive(At(m, Target(b), dir))
  {
    ExcessGrows(m, b, day, day, dir);
    if b.start <= day < b.end {
      FillStep(m, b, day, dir);
    }
  }

  predicate Takes(b: PollBoundary, key: UsageKey) {
    Source(b, key.day) == key && b.start <= key.day < b.end
  }

  lemma {:induction false} GivenByNone(m: Residuals, done: seq<PollBoundary>, key: UsageKey, dir: Direction)
    requires forall i :: 0 <= i < |done| ==> !Takes(done[i], key)
    ensures Given(m, done, key, dir) == 0
  {
    if done != [] {
      GivenByNone(m, done[..|done| - 1], key, dir);
    }
  }

  lemma {:induction false} ReceivedByNone(m: Residuals, done: seq<PollBoundary>, key: UsageKey, dir: Direction)
    requires forall i :: 0 <= i < |done| ==> Target(done[i]) != key
    ensures Received(m, done, key, dir) == 0
  {
    if done != [] {
      ReceivedByNone(m, done[..|done| - 1], key, dir);
    }
  }

  /** At most one boundary takes from a day, and never more than its excess. */
  lemma {:induction false} GivenBounds(m: Residuals, done: seq<PollBoundary>, key: UsageKey, dir: Direction)
    requires Usable(done)
    ensures 0 <= Given(m, done, key, dir) <= Positive(-At(m, key, dir))
  {
    if done != [] {
      var init, b := done[..|done| - 1], done[|done| - 1];
      UsablePrefix(done);
      if Takes(b, key) {
        forall i | 0 <= i < |init| ensures !Takes(init[i], key) {
          NoRepeats(done, i, |done| - 1);
        }
        GivenByNone(m, init, key, dir);
        ShareBounds(m, b, key.day, dir);
      } else {
        GivenBounds(m, init, key, dir);
      }
    }
  }

  /** At most one boundary ends on a day, and it never brings more than the shortfall. */
  lemma {:induction false} ReceivedBounds(m: Residuals, done: seq<PollBoundary>, key: UsageKey, dir: Direction)
    requires Usable(done)
    ensures 0 <= Received(m, done, key, dir) <= Positive(At(m, key, dir))
  {
    if done != [] {
      var init, b := done[..|done| - 1], done[|done| - 1];
      UsablePrefix(done);
      if Target(b) == key {
        forall i | 0 <= i < |init| ensures Target(init[i]) != key {
          NoRepeats(done, i, |done| - 1);
        }
        ReceivedByNone(m, init, key, dir);
        ShareBounds(m, b, b.end, dir);
      } else {
        ReceivedBounds(m, init, key, dir);
      }
    }
  }

  lemma {:induction false} ReceivedAtTarget(m: Residuals, done: seq<PollBoundary>, i: nat, dir: Direction)
    requires Usable(done) && i < |done|
    ensures Received(m, done, Target(done[i]), dir) == Fill(m, done[i], done[i].end, dir)
  {
    var init, b := done[..|done| - 1], done[|done| - 1];
    UsablePrefix(done);
    if i == |done| - 1 {
      forall k | 0 <= k < |init| ensures Target(init[k]) != Target(b) {
        NoRepeats(done, k, i);
      }
      ReceivedByNone(m, init, Target(b), dir);
    } else {
      NoRepeats(done, i, |done| - 1);
      ReceivedAtTarget(m, init, i, dir);
    }
  }

  /** Earlier boundaries leave a later one exactly the excess and the shortfall it had at first. */
  lemma LaterUntouched(m: Residuals, m': Residuals, done: seq<PollBoundary>, b: PollBoundary, day: int, dir: Direction)
    requires Usable(done + [b]) && Settled(m, m', done)
    ensures b.start <= day < b.end ==> Positive(-At(m', Source(b, day), dir)) == Positive(-At(m, Source(b, day), dir))
    ensures At(m', Target(b), dir) == At(m, Target(b), dir)
  {
    var all := done + [b];
    assert all[..|all| - 1] == done;
    UsablePrefix(all);
    forall i | 0 <= i < |done|
      ensures Target(done[i]) != Target(b) && !Takes(done[i], Target(b))
      ensures b.start <= day < b.end ==> !Takes(done[i], Source(b, day))
    {
      NoRepeats(all, i, |done|);
      assert all[i] == done[i] && all[|done|] == b;
      assert NotAfter(all[i], all[|done|]);
      assert b in multiset(all);
    }
    ReceivedByNone(m, done, Target(b), dir);
    GivenByNone(m, done, Target(b), dir);
    if b.start <= day < b.end {
      GivenByNone(m, done, Source(b, day), dir);
      ReceivedBounds(m, done, Source(b, day), dir);
    }
  }

  lemma {:induction false} SameExcess(m: Residuals, m': Residuals, b: PollBoundary, until: int, dir: Direction)
    requires until <= b.end
    requires forall day :: b.start <= day < b.end ==>
      Positive(-At(m', Source(b, day), dir)) == Positive(-At(m, Source(b, day), dir))
    ensures Excess(m', b, until, dir) == Excess(m, b, until, dir)
    decreases until - b.start
  {
    if b.start < until {
      SameExcess(m, m', b, until - 1, dir);
    }
  }

  lemma SameShare(m: Residuals, m': Residuals, done: seq<PollBoundary>, b: PollBoundary, day: int, dir: Direction)
    requires Usable(done + [b]) && Settled(m, m', done)
    ensures Share(m', b, day, dir) == Share(m, b, day, dir)
    ensures Fill(m', b, b.end, dir) == Fill(m, b, b.end, dir)
  {
    forall d | b.start <= d < b.end
      ensures Positive(-At(m', Source(b, d), dir)) == Positive(-At(m, Source(b, d), dir))
    {
      LaterUntouched(m, m', done, b, d, dir);
    }
    LaterUntouched(m, m', done, b, b.end, dir);
    SameExcess(m, m', b, b.end, dir);
    if b.start <= day < b.end {
      SameExcess(m, m', b, day, dir);
      SameExcess(m, m', b, day + 1, dir);
    }
  }

  lemma SettleStep(m: Residuals, m': Residuals, m2: Residuals, done: seq<PollBoundary>, b: PollBoundary)
    requires Usable(done + [b]) && Settled(m, m', done) && Took(m', m2, b, b.end)
    ensures Settled(m, m2, done + [b])
  {
    assert (done + [b])[..|done + [b]| - 1] == done;
    forall key, dir
      ensures At(m2, key, dir) == At(m, key, dir) + Given(m, done + [b], key, dir) - Received(m, done + [b], key, dir)
    {
      SameShare(m, m', done, b, key.day, dir);
      assert At(m2, key, dir) == Taken(m', b, b.end, key, dir);
    }
  }

  lemma AbsentTargetTakesNothing(m: Residuals, b: PollBoundary)
    requires Target(b) !in m && AtLeastZero(b.counters)
    ensures Took(m, m, b, b.end) && Lists([], m, b, b.end) && Balanced(m, m, [])
  {
    forall day, dir ensures Fill(m, b, day, dir) == 0 {
      ShareBounds(m, b, day, dir);
    }
  }

  // --- the whole pass --------------------------------------------------------------------

  /** Matching never changes the sign of a residual nor makes it larger. */
  ghost predicate Shrinks(m: Residuals, m': Residuals) {
    forall key, dir ::
      if At(m, key, dir) >= 0 then 0 <= At(m', key, dir) <= At(m, key, dir)
      else At(m, key, dir) <= At(m', key, dir) <= 0
  }

  lemma TookShrinks(m: Residuals, m': Residuals, m2: Residuals, b: PollBoundary)
    requires Shrinks(m, m') && Took(m', m2, b, b.end) && AtLeastZero(b.counters)
    ensures Shrinks(m, m2)
  {
    forall key, dir
      ensures if At(m, key, dir) >= 0 then 0 <= At(m2, key, dir) <= At(m, key, dir)
              else At(m, key, dir) <= At(m2, key, dir) <= 0
    {
      assert At(m2, key, dir) == Taken(m', b, b.end, key, dir);
      ShareBounds(m', b, key.day, dir);
      ShareBounds(m', b, b.end, dir);
      assert if At(m, key, dir) >= 0 then 0 <= At(m', key, dir) <= At(m, key, dir)
             else At(m, key, dir) <= At(m', key, dir) <= 0;
    }
  }

  /** Every offset moves bytes of one owner from a day that its poll covered to the day that poll ended. */
  predicate Belongs(o: BoundaryOffset, b: PollBoundary) {
    && o.user == b.user && o.protocol == b.protocol && o.target == b.end
    && b.start <= o.source < b.end && AtLeastZero(o.counters) && o.counters != ZERO
  }

  ghost predicate AllBelong(offsets: seq<BoundaryOffset>, boundaries: multiset<PollBoundary>) {
    forall i :: 0 <= i < |offsets| ==> exists b <- boundaries :: Belongs(offsets[i], b)
  }

  lemma ListsBelong(offsets: seq<BoundaryOffset>, m: Residuals, b: PollBoundary)
    requires Lists(offsets, m, b, b.end) && AtLeastZero(b.counters)
    ensures forall i :: 0 <= i < |offsets| ==> Belongs(offsets[i], b)
  {
    forall i | 0 <= i < |offsets| ensures Belongs(offsets[i], b) {
      assert offsets[i] in offsets;
      ShareBounds(m, b, offsets[i].source, Up);
      ShareBounds(m, b, offsets[i].source, Down);
    }
  }

  // --- what one poll's matches amount to ---------------------------------------------------

  function Carried(offsets: seq<BoundaryOffset>, dir: Direction): int {
    if offsets == [] then 0
    else Carried(offsets[..|offsets| - 1], dir) + Get(offsets[|offsets| - 1].counters, dir)
  }

  /** The matches of one poll: each is one of its own, and together they stay within its counters. */
  ghost predicate PartOk(part: seq<BoundaryOffset>, b: PollBoundary) {
    && (forall i :: 0 <= i < |part| ==> Belongs(part[i], b))
    && Carried(part, Up) <= b.counters.up && Carried(part, Down) <= b.counters.down
  }

  function Joined(parts: seq<seq<BoundaryOffset>>): seq<BoundaryOffset> {
    if parts == [] then [] else Joined(parts[..|parts| - 1]) + parts[|parts| - 1]
  }

  /** The offsets, poll by poll. */
  ghost predicate InParts(offsets: seq<BoundaryOffset>, parts: seq<seq<BoundaryOffset>>, polls: seq<PollBoundary>) {
    && offsets == Joined(parts) && |parts| == |polls|
    && forall k :: 0 <= k < |parts| ==> PartOk(parts[k], polls[k])
  }

  lemma InPartsStep(offsets: seq<BoundaryOffset>, parts: seq<seq<BoundaryOffset>>, polls: seq<PollBoundary>,
                    more: seq<BoundaryOffset>, b: PollBoundary)
    requires InParts(offsets, parts, polls) && PartOk(more, b)
    ensures InParts(offsets + more, parts + [more], polls + [b])
  {
    assert (parts + [more])[..|parts|] == parts;
  }

  lemma ListsOneLess(offsets: seq<BoundaryOffset>, m: Residuals, b: PollBoundary, until: int)
    requires Lists(offsets, m, b, until) && b.start < until
    ensures if offsets != [] && offsets[|offsets| - 1].source == until - 1
            then Lists(offsets[..|offsets| - 1], m, b, until - 1)
                && offsets[|offsets| - 1].counters == Shares(m, b, until - 1)
            else Lists(offsets, m, b, until - 1) && Shares(m, b, until - 1) == ZERO
  {
    assert forall i :: 0 <= i < |offsets| ==> offsets[i] in offsets;
    if offsets != [] && offsets[|offsets| - 1].source == until - 1 {
      var init := offsets[..|offsets| - 1];
      forall day | b.start <= day < until - 1 && Shares(m, b, day) != ZERO ensures Covers(init, day) {
        assert Covers(offsets, day);
        var i :| 0 <= i < |offsets| && offsets[i].source == day;
        assert init[i].source == day;
      }
    } else {
      LastDayUnlisted(offsets, b.start, until);
    }
  }

  lemma LastDayUnlisted(offsets: seq<BoundaryOffset>, start: int, until: int)
    requires forall i :: 0 <= i < |offsets| ==> start <= offsets[i].source < until
    requires forall i, j :: 0 <= i < j < |offsets| ==> offsets[i].source < offsets[j].source
    requires offsets != [] ==> offsets[|offsets| - 1].source != until - 1
    ensures (forall i :: 0 <= i < |offsets| ==> offsets[i].source < until - 1) && !Covers(offsets, until - 1)
  {
    forall i | 0 <= i < |offsets| ensures offsets[i].source < until - 1 {
      assert i < |offsets| - 1 ==> offsets[i].source < offsets[|offsets| - 1].source;
    }
  }

  lemma FirstIsIn(offsets: seq<BoundaryOffset>)
    requires offsets != []
    ensures offsets[0] in offsets
  {
  }

  lemma NothingListed(offsets: seq<BoundaryOffset>, m: Residuals, b: PollBoundary, until: int)
    requires Lists(offsets, m, b, until) && until <= b.start
    ensures offsets == []
  {
    if offsets != [] {
      FirstIsIn(offsets);
      assert false;
    }
  }

  lemma {:induction false} ListsCarry(offsets: seq<BoundaryOffset>, m: Residuals, b: PollBoundary, until: int,
                                      dir: Direction)
    requires Lists(offsets, m, b, until) && b.start <= until <= b.end && AtLeastZero(b.counters)
    ensures Carried(offsets, dir) == Fill(m, b, until, dir)
    decreases until - b.start
  {
    if until == b.start {
      NothingListed(offsets, m, b, until);
    } else {
      ListsOneLess(offsets, m, b, until);
      if offsets != [] && offsets[|offsets| - 1].source == until - 1 {
        ListsCarry(offsets[..|offsets| - 1], m, b, until - 1, dir);
      } else {
        ListsCarry(offsets, m, b, until - 1, dir);
        assert Get(Shares(m, b, until - 1), dir) == 0;
      }
    }
  }

  lemma PartStays(offsets: seq<BoundaryOffset>, m: Residuals, b: PollBoundary)
    requires Lists(offsets, m, b, b.end) && AtLeastZero(b.counters)
    ensures PartOk(offsets, b)
  {
    ListsBelong(offsets, m, b);
    if b.start <= b.end {
      ListsCarry(offsets, m, b, b.end, Up);
      ListsCarry(offsets, m, b, b.end, Down);
    } else {
      NothingListed(offsets, m, b, b.end);
    }
  }

  function OffsetOf(m: Residuals, b: PollBoundary, day: int): BoundaryOffset {
    BoundaryOffset(day, b.end, b.user, b.protocol, Shares(m, b, day))
  }

  /** The offsets are exactly the nonzero shares of the boundaries, measured on the original residuals. */
  ghost predicate ListsAll(offsets: seq<BoundaryOffset>, m: Residuals, done: seq<PollBoundary>) {
    && (forall o <- offsets :: exists i :: 0 <= i < |done| && IsOffset(o, m, done[i]))
    && (forall i, day :: 0 <= i < |done| && Shares(m, done[i], day) != ZERO ==> OffsetOf(m, done[i], day) in offsets)
  }

  predicate IsOffset(o: BoundaryOffset, m: Residuals, b: PollBoundary) {
    o == OffsetOf(m, b, o.source) && o.counters != ZERO
  }

  lemma ListsAllStep(offsets: seq<BoundaryOffset>, more: seq<BoundaryOffset>, m: Residuals, m': Residuals,
                     done: seq<PollBoundary>, b: PollBoundary)
    requires ListsAll(offsets, m, done)
    requires forall day :: Shares(m', b, day) == Shares(m, b, day)
    requires Lists(more, m', b, b.end)
    ensures ListsAll(offsets + more, m, done + [b])
  {
    var all := done + [b];
    forall o | o in offsets + more ensures exists i :: 0 <= i < |all| && IsOffset(o, m, all[i]) {
      if o in offsets {
        var i :| 0 <= i < |done| && IsOffset(o, m, done[i]);
        assert IsOffset(o, m, all[i]);
      } else {
        assert IsOffset(o, m, all[|done|]);
      }
    }
    forall i, day | 0 <= i < |all| && Shares(m, all[i], day) != ZERO
      ensures OffsetOf(m, all[i], day) in offsets + more
    {
      if i < |done| {
        assert all[i] == done[i];
      } else {
        assert Covers(more, day);
        var j :| 0 <= j < |more| && more[j].source == day;
        assert more[j] in more;
      }
    }
  }

  function GapsOf(m: Residuals): Residuals {
    map key <- m.Keys | m[key].up > 0 || m[key].down > 0 :: Counters(Positive(m[key].up), Positive(m[key].down))
  }

  /** The state of the pass after some boundaries. */
  ghost predicate Pass(m: Residuals, m': Residuals, offsets: seq<BoundaryOffset>,
                       boundaries: multiset<PollBoundary>, done: seq<PollBoundary>) {
    && Balanced(m, m', offsets) && Shrinks(m, m') && AllBelong(offsets, boundaries)
    && (Disjoint(boundaries) ==> Settled(m, m', done) && ListsAll(offsets, m, done))
  }

  lemma PassStep(m: Residuals, m': Residuals, offsets: seq<BoundaryOffset>, m2: Residuals, more: seq<BoundaryOffset>,
                 boundaries: multiset<PollBoundary>, done: seq<PollBoundary>, b: PollBoundary)
    requires Pass(m, m', offsets, boundaries, done) && b in boundaries && AtLeastZero(b.counters)
    requires Took(m', m2, b, b.end) && Lists(more, m', b, b.end) && Balanced(m', m2, more)
    requires Disjoint(boundaries) ==> Usable(done + [b])
    ensures Pass(m, m2, offsets + more, boundaries, done + [b])
  {
    ListsBelong(more, m', b);
    TookShrinks(m, m', m2, b);
    BalancedConcat(m, m', m2, offsets, more);
    BelongConcat(offsets, more, boundaries, b);
    if Disjoint(boundaries) {
      SettleStep(m, m', m2, done, b);
      forall day ensures Shares(m', b, day) == Shares(m, b, day) {
        SameShare(m, m', done, b, day, Up);
        SameShare(m, m', done, b, day, Down);
      }
      ListsAllStep(offsets, more, m, m', done, b);
    }
  }

  /** What the poll pass does at one boundary, whatever the others are. */
  ghost predicate TakesGreedily(m: Residuals, m': Residuals, part: seq<BoundaryOffset>, b: PollBoundary) {
    if Target(b) in m then Took(m, m', b, b.end) && Lists(part, m, b, b.end) else m' == m && part == []
  }

  /** Each boundary in turn takes what it can of what the ones before it left. */
  ghost predicate Successively(stages: seq<Residuals>, parts: seq<seq<BoundaryOffset>>, polls: seq<PollBoundary>) {
    && |stages| == |polls| + 1 && |parts| == |polls|
    && forall k :: 0 <= k < |polls| ==> TakesGreedily(stages[k], stages[k + 1], parts[k], polls[k])
  }

  lemma SuccessivelyStep(stages: seq<Residuals>, parts: seq<seq<BoundaryOffset>>, polls: seq<PollBoundary>,
                         m: Residuals, part: seq<BoundaryOffset>, b: PollBoundary)
    requires Successively(stages, parts, polls) && TakesGreedily(stages[|polls|], m, part, b)
    ensures Successively(stages + [m], parts + [part], polls + [b])
  {
    forall k | 0 <= k < |polls| + 1
      ensures TakesGreedily((stages + [m])[k], (stages + [m])[k + 1], (parts + [part])[k], (polls + [b])[k])
    {
      assert k < |polls| ==> TakesGreedily(stages[k], stages[k + 1], parts[k], polls[k]);
    }
  }

  /** One boundary of the pass; a day without any residual to fill takes nothing. */
  method PassBoundary(ghost residuals: Residuals, left: Residuals, listed: seq<BoundaryOffset>,
                      ghost boundaries: multiset<PollBoundary>, ghost done: seq<PollBoundary>, b: PollBoundary)
      returns (remaining: Residuals, more: seq<BoundaryOffset>)
    requires Pass(residuals, left, listed, boundaries, done) && b in boundaries && AtLeastZero(b.counters)
    requires Disjoint(boundaries) ==> Usable(done + [b])
    ensures Pass(residuals, remaining, listed + more, boundaries, done + [b]) && PartOk(more, b)
    ensures TakesGreedily(left, remaining, more, b)
  {
    if Target(b) in left {
      remaining, more := MatchBoundary(left, b);
    } else {
      AbsentTargetTakesNothing(left, b);
      remaining, more := left, [];
    }
    PassStep(residuals, left, listed, remaining, more, boundaries, done, b);
    PartStays(more, left, b);
  }

  /** What the pass needs of its next boundary. */
  lemma NextIsUsable(ordered: seq<PollBoundary>, all: multiset<PollBoundary>, k: nat)
    requires multiset(ordered) == all && Sorted(ordered) && k < |ordered|
    requires forall b <- all :: AtLeastZero(b.counters)
    ensures ordered[k] in all && AtLeastZero(ordered[k].counters)
    ensures ordered[..k + 1] == ordered[..k] + [ordered[k]]
    ensures Disjoint(all) ==> Usable(ordered[..k] + [ordered[k]])
  {
    assert ordered[k] in multiset(ordered);
    assert ordered[..k + 1] == ordered[..k] + [ordered[k]];
    if Disjoint(all) {
      PrefixUsable(ordered, k + 1);
    }
  }

  method PassAll(residuals: Residuals, ordered: seq<PollBoundary>, ghost all: multiset<PollBoundary>)
      returns (remaining: Residuals, offsets: seq<BoundaryOffset>, ghost done: seq<PollBoundary>,
               ghost parts: seq<seq<BoundaryOffset>>, ghost stages: seq<Residuals>)
    requires multiset(ordered) == all && Sorted(ordered) && forall b <- all :: AtLeastZero(b.counters)
    requires Pass(residuals, residuals, [], all, [])
    ensures done == ordered && Pass(residuals, remaining, offsets, all, done) && InParts(offsets, parts, done)
    ensures Successively(stages, parts, done) && stages[0] == residuals && stages[|done|] == remaining
  {
    remaining, offsets, done, parts, stages := residuals, [], [], [], [residuals];
    for k := 0 to |ordered|
      invariant done == ordered[..k] && Pass(residuals, remaining, offsets, all, done)
      invariant InParts(offsets, parts, done)
      invariant Successively(stages, parts, done) && stages[0] == residuals && stages[|done|] == remaining
    {
      NextIsUsable(ordered, all, k);
      var more;
      remaining, more := PassBoundary(residuals, remaining, offsets, all, done, ordered[k]);
      InPartsStep(offsets, parts, done, more, ordered[k]);
      SuccessivelyStep(stages, parts, done, remaining, more, ordered[k]);
      offsets := offsets + more;
      done, parts, stages := done + [ordered[k]], parts + [more], stages + [remaining];
    }
    assert ordered[..|ordered|] == ordered;
  }

  lemma PassBegins(m: Residuals, all: multiset<PollBoundary>)
    ensures Pass(m, m, [], all, [])
  {
  }

  lemma BalancedConcat(m: Residuals, m': Residuals, m2: Residuals, a: seq<BoundaryOffset>, b: seq<BoundaryOffset>)
    requires Balanced(m, m', a) && Balanced(m', m2, b)
    ensures Balanced(m, m2, a + b)
  {
    forall key, dir ensures At(m2, key, dir) == At(m, key, dir) + Flow(a + b, key, dir) {
      FlowConcat(a, b, key, dir);
    }
  }

  lemma BelongConcat(a: seq<BoundaryOffset>, b: seq<BoundaryOffset>, boundaries: multiset<PollBoundary>,
                     poll: PollBoundary)
    requires AllBelong(a, boundaries) && poll in boundaries
    requires forall i :: 0 <= i < |b| ==> Belongs(b[i], poll)
    ensures AllBelong(a + b, boundaries)
  {
    forall i | 0 <= i < |a + b| ensures exists p <- boundaries :: Belongs((a + b)[i], p) {
      if i < |a| {
        assert (a + b)[i] == a[i];
      } else {
        assert (a + b)[i] == b[i - |a|];
        assert Belongs((a + b)[i], poll);
      }
    }
  }

  lemma PrefixUsable(sorted: seq<PollBoundary>, k: nat)
    requires k <= |sorted| && Disjoint(multiset(sorted)) && Sorted(sorted)
    requires forall b <- multiset(sorted) :: AtLeastZero(b.counters)
    ensures Usable(sorted[..k])
  {
    var prefix := sorted[..k];
    assert sorted == prefix + sorted[k..];
    assert multiset(sorted) == multiset(prefix) + multiset(sorted[k..]);
    assert forall b <- multiset(prefix) :: b in multiset(sorted);
    forall i | 0 <= i < |prefix| ensures AtLeastZero(prefix[i].counters) {
      assert prefix[i] in multiset(prefix);
    }
  }

  /** Oldest first: while a day still has excess that the poll could have used, no later day gave anything. */
  lemma OldestFirst(m: Residuals, m': Residuals, b: PollBoundary, day: int, later: int, dir: Direction)
    requires Took(m, m', b, b.end) && AtLeastZero(b.counters) && b.start <= day < later < b.end
    requires At(m', UsageKey(day, b.user, b.protocol), dir) < 0
    ensures At(m', UsageKey(later, b.user, b.protocol), dir) == At(m, UsageKey(later, b.user, b.protocol), dir)
  {
    assert At(m', Source(b, day), dir) == Taken(m, b, b.end, Source(b, day), dir);
    assert At(m', Source(b, later), dir) == Taken(m, b, b.end, Source(b, later), dir);
    FillStep(m, b, day, dir);
    ExcessGrows(m, b, day + 1, later, dir);
    ExcessGrows(m, b, later, later + 1, dir);
  }

  // --- the main results ----------------------------------------------------------------------

  /** What the pass leaves unexplained on a day: its shortfall, less what the one poll that ended there could
      account for - bounded by that poll's own counters and by the excess on the days it covered. */
  ghost predicate IsGap(m: Residuals, boundaries: multiset<PollBoundary>, key: UsageKey, dir: Direction, gap: int) {
    var short := if At(m, key, dir) > 0 then At(m, key, dir) else 0;
    && (forall b <- boundaries :: EndsAt(b, key) ==> Filled(m, b, key, dir, gap))
    && ((forall b <- boundaries :: !EndsAt(b, key)) ==> gap == short)
  }

  /** A poll explains as much of a shortfall as its own counters and the excess on its days allow. */
  predicate Filled(m: Residuals, b: PollBoundary, key: UsageKey, dir: Direction, gap: int) {
    var short := if At(m, key, dir) > 0 then At(m, key, dir) else 0;
    var excess := SpanExcess(m, key.user, key.protocol, b.start, b.end, dir);
    && 0 <= gap <= short && short - gap <= Get(b.counters, dir) && short - gap <= excess
    && (gap == 0 || short - gap == Get(b.counters, dir) || short - gap == excess)
  }

  predicate EndsAt(b: PollBoundary, key: UsageKey) {
    b.end == key.day && b.user == key.user && b.protocol == key.protocol
  }

  /** The bytes attributed beyond the metered ones on the days from the first to the last, the last excluded. */
  function SpanExcess(m: Residuals, user: Name, protocol: Name, from: int, until: int, dir: Direction): int
    decreases until - from
  {
    if until <= from then 0
    else
      var last := UsageKey(until - 1, user, protocol);
      SpanExcess(m, user, protocol, from, until - 1, dir)
      + if last in m && Get(m[last], dir) < 0 then -Get(m[last], dir) else 0
  }

  lemma {:induction false} ExcessOfSpan(m: Residuals, b: PollBoundary, until: int, dir: Direction)
    ensures Excess(m, b, until, dir) == SpanExcess(m, b.user, b.protocol, b.start, until, dir)
    decreases until - b.start
  {
    if b.start < until {
      ExcessOfSpan(m, b, until - 1, dir);
    }
  }

  /** A gap in terms of the bounded fill of the poll that ends there. */
  lemma FilledGap(m: Residuals, b: PollBoundary, key: UsageKey, dir: Direction, gap: int)
    requires Target(b) == key && AtLeastZero(b.counters)
    ensures gap == Positive(At(m, key, dir)) - Fill(m, b, b.end, dir) <==> Filled(m, b, key, dir, gap)
  {
    ExcessOfSpan(m, b, b.end, dir);
    ExcessGrows(m, b, b.end, b.end, dir);
  }

  /** A residual that was matched away ends at zero or keeps its sign, so only shortfalls remain as gaps. */
  lemma SettledGap(m: Residuals, m': Residuals, sorted: seq<PollBoundary>, key: UsageKey, dir: Direction)
    requires Usable(sorted) && Settled(m, m', sorted)
    ensures Positive(At(m', key, dir)) == Positive(At(m, key, dir)) - Received(m, sorted, key, dir)
  {
    GivenBounds(m, sorted, key, dir);
    ReceivedBounds(m, sorted, key, dir);
    assert At(m', key, dir) == At(m, key, dir) + Given(m, sorted, key, dir) - Received(m, sorted, key, dir);
  }

  lemma GapsAt(m: Residuals, key: UsageKey, dir: Direction)
    ensures At(GapsOf(m), key, dir) == Positive(At(m, key, dir))
  {
  }

  /** Exact greedy matching: when one owner's polls do not overlap, every gap is the shortfall less
      min(the poll's counters, the shortfall, the whole excess of the days it covered). */
  lemma MatchingIsExact(m: Residuals, m': Residuals, offsets: seq<BoundaryOffset>,
                        boundaries: multiset<PollBoundary>, sorted: seq<PollBoundary>, key: UsageKey, dir: Direction)
    requires Pass(m, m', offsets, boundaries, sorted) && multiset(sorted) == boundaries && Sorted(sorted)
    requires Disjoint(boundaries) && forall b <- boundaries :: AtLeastZero(b.counters)
    ensures IsGap(m, boundaries, key, dir, At(GapsOf(m'), key, dir))
  {
    PrefixUsable(sorted, |sorted|);
    assert sorted[..|sorted|] == sorted;
    GapsAt(m', key, dir);
    SettledGap(m, m', sorted, key, dir);
    forall b | b in boundaries && Target(b) == key
      ensures Received(m, sorted, key, dir) == Fill(m, b, b.end, dir)
      ensures Filled(m, b, key, dir, At(GapsOf(m'), key, dir))
    {
      assert b in multiset(sorted);
      var i :| 0 <= i < |sorted| && sorted[i] == b;
      ReceivedAtTarget(m, sorted, i, dir);
      FilledGap(m, b, key, dir, At(GapsOf(m'), key, dir));
    }
    if forall b <- boundaries :: Target(b) != key {
      forall i | 0 <= i < |sorted| ensures Target(sorted[i]) != key {
        assert sorted[i] in multiset(sorted);
      }
      ReceivedByNone(m, sorted, key, dir);
    }
  }

  lemma GapsAreExact(m: Residuals, m': Residuals, offsets: seq<BoundaryOffset>,
                     boundaries: multiset<PollBoundary>, sorted: seq<PollBoundary>)
    requires Pass(m, m', offsets, boundaries, sorted) && multiset(sorted) == boundaries && Sorted(sorted)
    requires Disjoint(boundaries) && forall b <- boundaries :: AtLeastZero(b.counters)
    ensures AllExact(m, boundaries, GapsOf(m'))
  {
    forall key, dir ensures IsGap(m, boundaries, key, dir, At(GapsOf(m'), key, dir)) {
      MatchingIsExact(m, m', offsets, boundaries, sorted, key, dir);
    }
  }

  ghost predicate AllExact(m: Residuals, boundaries: multiset<PollBoundary>, gaps: Residuals) {
    forall key, dir :: IsGap(m, boundaries, key, dir, At(gaps, key, dir))
  }

  /** remaining, sorted, parts and stages only name what the contract speaks of; the source returns gaps and offsets. */
  method ReconcileBoundaries(residuals: Residuals, boundaries: seq<PollBoundary>)
      returns (gaps: Residuals, offsets: seq<BoundaryOffset>, ghost remaining: Residuals,
               ghost sorted: seq<PollBoundary>, ghost parts: seq<seq<BoundaryOffset>>,
               ghost stages: seq<Residuals>)
    requires forall b <- multiset(boundaries) :: AtLeastZero(b.counters)
    ensures gaps == GapsOf(remaining)
    ensures forall key <- gaps :: key in residuals && gaps[key] != ZERO && AtLeastZero(gaps[key])
    ensures Successively(stages, parts, sorted) && stages[0] == residuals && stages[|sorted|] == remaining
    ensures multiset(sorted) == multiset(boundaries) && Sorted(sorted)
    ensures Pass(residuals, remaining, offsets, multiset(boundaries), sorted)
    ensures AllBelong(offsets, multiset(boundaries)) && InParts(offsets, parts, sorted)
    ensures Disjoint(multiset(boundaries)) ==> AllExact(residuals, multiset(boundaries), gaps)
  {
    var ordered := SortBoundaries(boundaries);
    PassBegins(residuals, multiset(boundaries));
    var left;
    left, offsets, sorted, parts, stages := PassAll(residuals, ordered, multiset(boundaries));
    remaining := left;
    gaps := GapsOf(left);
    if Disjoint(multiset(boundaries)) {
      GapsAreExact(residuals, left, offsets, multiset(boundaries), sorted);
    }
  }

  lemma {:induction false} ExcessAntitone(low: Residuals, high: Residuals, b: PollBoundary, until: int, dir: Direction)
    requires forall key :: At(low, key, dir) <= At(high, key, dir)
    ensures Excess(high, b, until, dir) <= Excess(low, b, until, dir)
    decreases until - b.start
  {
    if b.start < until {
      ExcessAntitone(low, high, b, until - 1, dir);
      assert At(low, Source(b, until - 1), dir) <= At(high, Source(b, until - 1), dir);
    }
  }

  /** Attributing more bytes, as a late stream flush does, lowers residuals and never raises any gap. */
  lemma LateFlushNeverRaisesAGap(low: Residuals, high: Residuals, boundaries: multiset<PollBoundary>,
                                 key: UsageKey, dir: Direction, lowGap: int, highGap: int)
    requires forall k :: At(low, k, dir) <= At(high, k, dir)
    requires forall b <- boundaries :: AtLeastZero(b.counters)
    requires IsGap(low, boundaries, key, dir, lowGap) && IsGap(high, boundaries, key, dir, highGap)
    ensures lowGap <= highGap
  {
    assert At(low, key, dir) <= At(high, key, dir);
    if b :| b in boundaries && EndsAt(b, key) {
      FilledGap(low, b, key, dir, lowGap);
      FilledGap(high, b, key, dir, highGap);
      ExcessAntitone(low, high, b, b.end, dir);
      ExcessGrows(high, b, b.end, b.end, dir);
    }
  }

  /** Running again on the same residuals and polls gives the same gaps and the same offset rows. */
  lemma RerunAgrees(m: Residuals, m1: Residuals, m2: Residuals, offsets1: seq<BoundaryOffset>,
                    offsets2: seq<BoundaryOffset>,
                    boundaries: multiset<PollBoundary>, sorted1: seq<PollBoundary>, sorted2: seq<PollBoundary>)
    requires Pass(m, m1, offsets1, boundaries, sorted1) && multiset(sorted1) == boundaries && Sorted(sorted1)
    requires Pass(m, m2, offsets2, boundaries, sorted2) && multiset(sorted2) == boundaries && Sorted(sorted2)
    requires Disjoint(boundaries) && forall b <- boundaries :: AtLeastZero(b.counters)
    ensures GapsOf(m1) == GapsOf(m2)
    ensures forall o :: o in offsets1 <==> o in offsets2
  {
    forall key, dir ensures At(GapsOf(m1), key, dir) == At(GapsOf(m2), key, dir) {
      MatchingIsExact(m, m1, offsets1, boundaries, sorted1, key, dir);
      MatchingIsExact(m, m2, offsets2, boundaries, sorted2, key, dir);
    }
    SameGaps(m1, m2);
    OffsetsInclude(m, offsets1, offsets2, boundaries, sorted1, sorted2);
    OffsetsInclude(m, offsets2, offsets1, boundaries, sorted2, sorted1);
  }

  lemma SameGaps(a: Residuals, b: Residuals)
    requires a.Keys == b.Keys
    requires forall key, dir :: At(GapsOf(a), key, dir) == At(GapsOf(b), key, dir)
    ensures GapsOf(a) == GapsOf(b)
  {
    forall key | key in a
      ensures Positive(a[key].up) == Positive(b[key].up) && Positive(a[key].down) == Positive(b[key].down)
    {
      assert At(GapsOf(a), key, Up) == At(GapsOf(b), key, Up);
      assert At(GapsOf(a), key, Down) == At(GapsOf(b), key, Down);
    }
  }

  lemma OffsetsInclude(m: Residuals, a: seq<BoundaryOffset>, b: seq<BoundaryOffset>, boundaries: multiset<PollBoundary>,
                       sortedA: seq<PollBoundary>, sortedB: seq<PollBoundary>)
    requires ListsAll(a, m, sortedA) && ListsAll(b, m, sortedB)
    requires multiset(sortedA) == multiset(sortedB)
    ensures forall o <- a :: o in b
  {
    forall o | o in a ensures o in b {
      var i :| 0 <= i < |sortedA| && IsOffset(o, m, sortedA[i]);
      assert sortedA[i] in multiset(sortedB);
      var j :| 0 <= j < |sortedB| && sortedB[j] == sortedA[i];
      assert OffsetOf(m, sortedB[j], o.source) in b;
    }
  }

  /** One owner's residuals over a span of days. */
  function OwnerTotal(m: Residuals, user: Name, protocol: Name, from: int, until: int, dir: Direction): int
    decreases until - from
  {
    if until <= from then 0
    else OwnerTotal(m, user, protocol, from, until - 1, dir) + At(m, UsageKey(until - 1, user, protocol), dir)
  }

  function OwnerFlow(offsets: seq<BoundaryOffset>, user: Name, protocol: Name, from: int, until: int,
                     dir: Direction): int
    decreases until - from
  {
    if until <= from then 0
    else
      OwnerFlow(offsets, user, protocol, from, until - 1, dir)
      + Flow(offsets, UsageKey(until - 1, user, protocol), dir)
  }

  /** Conservation: over any span that holds an owner's matched days, matching changes no total. */
  lemma MatchingConserves(m: Residuals, m': Residuals, offsets: seq<BoundaryOffset>,
                          user: Name, protocol: Name, from: int, until: int, dir: Direction)
    requires Balanced(m, m', offsets)
    requires forall o <- offsets :: o.user == user && o.protocol == protocol ==>
        from <= o.source < until && from <= o.target < until
    ensures OwnerTotal(m', user, protocol, from, until, dir) == OwnerTotal(m, user, protocol, from, until, dir)
  {
    TotalsDiffer(m, m', offsets, user, protocol, from, until, dir);
    FlowCancels(offsets, user, protocol, from, until, dir);
  }

  lemma {:induction false} TotalsDiffer(m: Residuals, m': Residuals, offsets: seq<BoundaryOffset>,
                                        user: Name, protocol: Name, from: int, until: int, dir: Direction)
    requires Balanced(m, m', offsets)
    ensures OwnerTotal(m', user, protocol, from, until, dir)
         == OwnerTotal(m, user, protocol, from, until, dir) + OwnerFlow(offsets, user, protocol, from, until, dir)
    decreases until - from
  {
    if from < until {
      TotalsDiffer(m, m', offsets, user, protocol, from, until - 1, dir);
      assert At(m', UsageKey(until - 1, user, protocol), dir)
          == At(m, UsageKey(until - 1, user, protocol), dir) + Flow(offsets, UsageKey(until - 1, user, protocol), dir);
    }
  }

  function Within(day: int, from: int, until: int): int {
    if from <= day < until then 1 else 0
  }

  lemma {:induction false} FlowCancels(offsets: seq<BoundaryOffset>, user: Name, protocol: Name, from: int, until: int,
                                       dir: Direction)
    requires forall o <- offsets :: o.user == user && o.protocol == protocol ==>
        from <= o.source < until && from <= o.target < until
    ensures OwnerFlow(offsets, user, protocol, from, until, dir) == 0
    decreases |offsets|
  {
    if offsets == [] {
      NoFlow(user, protocol, from, until, dir);
    } else {
      var init, o := offsets[..|offsets| - 1], offsets[|offsets| - 1];
      assert offsets == init + [o];
      assert o in offsets;
      FlowCancels(init, user, protocol, from, until, dir);
      FlowOfLast(offsets, user, protocol, from, until, dir);
    }
  }

  lemma {:induction false} NoFlow(user: Name, protocol: Name, from: int, until: int, dir: Direction)
    ensures OwnerFlow([], user, protocol, from, until, dir) == 0
    decreases until - from
  {
    if from < until {
      NoFlow(user, protocol, from, until - 1, dir);
    }
  }

  lemma {:induction false} FlowOfLast(offsets: seq<BoundaryOffset>, user: Name, protocol: Name, from: int, until: int,
                                      dir: Direction)
    requires offsets != []
    ensures var o := offsets[|offsets| - 1];
      OwnerFlow(offsets, user, protocol, from, until, dir)
        == OwnerFlow(offsets[..|offsets| - 1], user, protocol, from, until, dir)
           + if o.user == user && o.protocol == protocol
             then Get(o.counters, dir) * (Within(o.source, from, until) - Within(o.target, from, until)) else 0
    decreases until - from
  {
    if from < until {
      FlowOfLast(offsets, user, protocol, from, until - 1, dir);
    }
  }
}
